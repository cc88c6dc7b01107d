# Trading bot core in Dafny

This project models the decision core of a trading bot in Dafny and proves
properties about it. It covers the following parts:

- **Support/resistance engine.** `BreakoutAnalyzer` runs these steps in order:
  - labels pivot highs and lows over a centred window;
  - clusters the pivot prices greedily;
  - turns each strong enough cluster into a zone, active until the price
    breaks through it by more than a band for K consecutive candles;
  - adds the role-reversed ("polarity") zone after each breakout;
  - merges near-duplicate breaks;
  - in one linear sweep, assigns per-candle S1..SN / R1..RN slots with
    hysteresis, plus a main support and a main resistance nearest to the
    close.
- **Signal interpreters.** There are six, for momentum, structure, volume,
  trend, volatility and risk. Each reads the last rows of an indicator frame
  and emits at most one signal per rule.
- **Signal aggregator.** It votes those signals into one operable BUY, SELL
  or HOLD signal:
  - EXIT counts as SELL;
  - ALERTs only shape a risk context;
  - a minimum score and a minimum margin apply;
  - an EXTREME risk alert vetoes BUY.
- **Portfolio service.** It covers order sizing (`compute_order_size`) and
  the portfolio's total value.
- **Risk constraints.** It clamps target weights (`validate_weights`).
- **Backtest ranking.** It ranks reports by Sharpe ratio, then drawdown, then
  total return, with a stable sort.
- **Fair-value-gap detector.** It finds three-candle gaps with a large
  middle body.
- **Simulated broker.** It fills every order at once at the latest price and
  books the fill into the portfolio.
- **Order record.** It covers the order's enumerations and the constraint
  that quantity is positive.
- **Settings.** These are the database-URL validator, the asyncpg rewrite
  and the environment checks.

Each source file becomes one module. The form follows the source:

- **Computations** are functions. Lemmas state what they promise.
- **Loops** are methods. Each method's `ensures` ties its result to a
  specification function, and lemmas prove properties of that function.
- **Objects that update their fields** are classes with `modifies` frames:
  the FVG analyzer's result columns (an `array`) and the broker's order
  table.

Floats are reals, and NaN is `None`. A Python dict that keeps insertion order
is a `seq` of key/value pairs (module `OrderedDict`). `sorted`, `np.sort` and
pandas' multi-key sort are one stable insertion sort (module `StableSort`).

Where the source computes something that looks wrong, the model does two
things (see "## Findings"):

- it keeps both versions, the one as written and the corrected one;
- it proves a concrete input on which they differ.

Everything downstream uses the corrected version.

## Model

| member | source | states |
|---|---|---|
| BreakoutConfig.ParseTimeframe | src/domain/etl/analyzers/breakout_analyzer.py:95-100 | the argument is stripped and lower-cased; the stored timeframe name is that string when it is one of the nine allowed ones, and "unknown" exactly otherwise |
| BreakoutConfig.ParseBandMode | src/domain/etl/analyzers/breakout_analyzer.py:104 | an empty mode falls back to "pct"; otherwise the lower-cased, stripped string "atr" is ATR mode, "pct" is percentage mode, and anything else is a third mode |
| BreakoutConfig.ParsePadded | src/domain/etl/analyzers/breakout_analyzer.py:95-104 | whitespace around a name never changes the parsed timeframe or band mode |
| BreakoutConfig.NormalizedNames | src/domain/etl/analyzers/breakout_analyzer.py:95-104 | "1H", " 5m " and "1MN" with a trailing newline are the 1h, 5m and 1mn timeframes; "ATR " and "PCT" are the two band modes; a blank mode is neither |
| BreakoutConfig.NormalizeParams | src/domain/etl/analyzers/breakout_analyzer.py:82-124 | the constructor's clamps: confirmation ≥ 1, merge separation and cooldown ≥ 0, tolerance and hysteresis never negative and kept when non-negative; timeframe and band mode parsed |
| BreakoutConfig.TokenConfig | src/domain/etl/analyzers/breakout_analyzer.py:131-139 | the four price-level profiles (cluster %, break %, minimum pivots) and their boundaries; minimum pivots is 2 below a price of 1, else 3 |
| BreakoutConfig.TfTuning | src/domain/etl/analyzers/breakout_analyzer.py:141-162 | the timeframe tuning never lowers the configured confirmation or band widths, reaches each group's floor, and leaves an unknown timeframe unchanged |
| BreakoutPivots.MaxOf | src/domain/etl/analyzers/breakout_analyzer.py:216 | the rolling maximum is an element of the window and bounds all of it |
| BreakoutPivots.MinOf | src/domain/etl/analyzers/breakout_analyzer.py:217 | the rolling minimum is an element of the window and bounds all of it from below |
| BreakoutPivots.PivotLabel | src/domain/etl/analyzers/breakout_analyzer.py:219-222 | the label is in {-1, 0, 1}: 1 exactly for a pivot high that is not also a pivot low, -1 exactly for a pivot low that is not also a pivot high |
| BreakoutPivots.Pivots | src/domain/etl/analyzers/breakout_analyzer.py:211-222 | one label per candle, each the candle's pivot label |
| BreakoutPivots.PivotHighIsWindowMax | src/domain/etl/analyzers/breakout_analyzer.py:216-221 | a candle is a pivot high exactly when its window fits in the series and no high within w candles on either side exceeds its own |
| BreakoutPivots.PivotLowIsWindowMin | src/domain/etl/analyzers/breakout_analyzer.py:217-222 | a candle is a pivot low exactly when its window fits and no low within w candles is below its own |
| BreakoutPivots.EdgesAreNeutral | src/domain/etl/analyzers/breakout_analyzer.py:216-222 | candles within w of either end (where pandas yields NaN) are never pivots |
| BreakoutPivots.ZeroWindowIsNeutral | src/domain/etl/analyzers/breakout_analyzer.py:219-222 | with a one-candle window every candle is both extremes, hence labelled 0 |
| BreakoutCluster.SortReals | src/domain/etl/analyzers/breakout_analyzer.py:231 | the sorted values are a permutation of the pivot values |
| BreakoutCluster.SortRealsAscending | src/domain/etl/analyzers/breakout_analyzer.py:231 | the sorted values are in ascending order |
| BreakoutCluster.GroupsPartition | src/domain/etl/analyzers/breakout_analyzer.py:232-248 | the clusters are contiguous runs that spell out the sorted values; a new cluster starts exactly where the next value is not within the threshold of the running mean; no values gives no clusters |
| BreakoutCluster.ClusterCounts | src/domain/etl/analyzers/breakout_analyzer.py:226-251 | every pivot lands in exactly one cluster (the counts sum to the number of values), and there are clusters exactly when there are values |
| BreakoutCluster.Summaries | src/domain/etl/analyzers/breakout_analyzer.py:246-250 | each summary is its cluster's mean and size |
| BreakoutCluster.GroupSorted | src/domain/etl/analyzers/breakout_analyzer.py:232-248 | the greedy loop computes the specified clusters |
| BreakoutCluster.ClusterPivots | src/domain/etl/analyzers/breakout_analyzer.py:226-251 | `_cluster_pivots` returns the summaries of the greedy clusters of the sorted values, none exactly for no values, with counts summing to the number of values |
| BreakoutScan.BandAt | src/domain/etl/analyzers/breakout_analyzer.py:278-285 | the band is never below `min_band_abs`, is `min_band_abs` where the raw band is NaN, and otherwise is the raw band floored at it |
| BreakoutScan.FirstConfirmed | src/domain/etl/analyzers/breakout_analyzer.py:292-309 | finds the first candle at which K consecutive breaks are reached, or states that none is |
| BreakoutScan.BreakIndex | src/domain/etl/analyzers/breakout_analyzer.py:253-309 | a start at or beyond the end answers n − 1; otherwise the answer lies between the start and n − 1 |
| BreakoutScan.RunMeansConsecutiveBreaks | src/domain/etl/analyzers/breakout_analyzer.py:292-305 | the counter is at least k exactly when the k candles ending here all break the band; a non-breaking candle resets it |
| BreakoutScan.BreakIndexAtFirstConfirmation | src/domain/etl/analyzers/breakout_analyzer.py:302-305 | at the first confirmed candle i the scan answers max(start, i − K) |
| BreakoutScan.BreakIndexWithoutConfirmation | src/domain/etl/analyzers/breakout_analyzer.py:292-309 | when no candle from the start on is confirmed, the scan answers n − 1 |
| BreakoutScan.FindBreakIndex | src/domain/etl/analyzers/breakout_analyzer.py:253-309 | the loop computes the specified break index |
| BreakoutZones.MedianWithinRange | src/domain/etl/analyzers/breakout_analyzer.py:345 | the median close lies between two of the closes |
| BreakoutZones.PivotValuesCount | src/domain/etl/analyzers/breakout_analyzer.py:354-360 | one side's pivot values are as many as the candles labelled with that side's code |
| BreakoutZones.Strong | src/domain/etl/analyzers/breakout_analyzer.py:368-369 | the strong clusters are exactly the clusters with at least `min_pivots` pivots |
| BreakoutZones.BaseZoneShape | src/domain/etl/analyzers/breakout_analyzer.py:374-385 | a base zone starts at candle 0, ends at its break index inside the series, and keeps the cluster's side, mean and count |
| BreakoutZones.ReversalShape | src/domain/etl/analyzers/breakout_analyzer.py:388-423 | a reversal exists exactly when x1 + 1 + cooldown < n; it has the opposite type, the same level and count, starts after the cooldown, lies inside the series and reaches the last candle when polarity is eternal |
| BreakoutZones.ZonesValid | src/domain/etl/analyzers/breakout_analyzer.py:336-432 | every zone covers a non-empty candle interval inside the series; no pivots gives no zones |
| BreakoutZones.ZonesAreStrong | src/domain/etl/analyzers/breakout_analyzer.py:368-430 | every returned zone, reversals and merged survivors included, was built from at least `min_pivots` pivots |
| BreakoutZones.PivotValuesOf | src/domain/etl/analyzers/breakout_analyzer.py:354-360 | the collection loop computes one side's pivot values in candle order |
| BreakoutZones.BaseZonesOf | src/domain/etl/analyzers/breakout_analyzer.py:374-385 | the scan loop builds one base zone per strong cluster |
| BreakoutZones.ReversalsOf | src/domain/etl/analyzers/breakout_analyzer.py:388-423 | the polarity loop builds exactly the specified reversals |
| BreakoutZones.BuildZones | src/domain/etl/analyzers/breakout_analyzer.py:336-432 | `_build_zones` returns the specified zones, all of them valid |
| BreakoutMerge.SortZones | src/domain/etl/analyzers/breakout_analyzer.py:317 | sorting by (x1, type, value) is a permutation of the zones |
| BreakoutMerge.CloseLevelsIsRelativeDistance | src/domain/etl/analyzers/breakout_analyzer.py:322-324 | the multiplied-out closeness test equals the source's relative distance below 1%, divided by max(value, 1e-9) |
| BreakoutMerge.KeepMask | src/domain/etl/analyzers/breakout_analyzer.py:318-333 | row j is kept exactly when it is the first row or does not merge into its predecessor |
| BreakoutMerge.MergeCloseBreaksAsWritten | src/domain/etl/analyzers/breakout_analyzer.py:311-334 | the source's loop, which writes the extension to row i − 1 |
| BreakoutMerge.SurvivorShape | src/domain/etl/analyzers/breakout_analyzer.py:327 | a run collapses into its first zone, with the latest break of the run |
| BreakoutMerge.RunsPartition | src/domain/etl/analyzers/breakout_analyzer.py:318-333 | the runs split the sorted zones into contiguous pieces; inside a run every zone merges into its predecessor; no run's first zone merges into the end of the run before it |
| BreakoutMerge.MergeNeverGrows | src/domain/etl/analyzers/breakout_analyzer.py:311-334 | merging never gives more zones than it receives, and is the identity for no zones or a separation of 0 |
| BreakoutMerge.MergeCovers | src/domain/etl/analyzers/breakout_analyzer.py:318-334 | every input zone is absorbed by an output zone of the same type that stays active at least as long |
| BreakoutMerge.MergePreservesValidity | src/domain/etl/analyzers/breakout_analyzer.py:318-334 | every output zone is an input zone with x1 possibly extended, and valid intervals stay valid |
| BreakoutMerge.MergeCloseBreaks | src/domain/etl/analyzers/breakout_analyzer.py:311-334 | the corrected merge computes the survivors of the runs of the sorted zones |
| BreakoutMerge.MergeSortedZones | src/domain/etl/analyzers/breakout_analyzer.py:318-334 | the keep/extend loop computes the survivors of the runs |
| BreakoutMergeExample.MergeChainCounterexample | src/domain/etl/analyzers/breakout_analyzer.py:318-334 | three chained supports breaking at 10, 12 and 14 merge, as written, into one zone ending at 12 |
| BreakoutMergeExample.MergeChainCorrected | src/domain/etl/analyzers/breakout_analyzer.py:318-334 | the corrected merge of the same chain ends at 14 |
| BreakoutSticky.SameLevelSymmetric | src/domain/etl/analyzers/breakout_analyzer.py:436-441 | the same-level test is symmetric and false when either side is NaN |
| BreakoutSticky.SameLevelReflexive | src/domain/etl/analyzers/breakout_analyzer.py:436-441 | a non-negative level is the same level as itself |
| BreakoutSticky.Rank | src/domain/etl/analyzers/breakout_analyzer.py:481-488 | the ranking is a permutation of the candidates |
| BreakoutSticky.RankOrder | src/domain/etl/analyzers/breakout_analyzer.py:481-488 | ranked candidates come stronger first, then nearer to the close, then lower level |
| BreakoutSticky.FirstSameLevelSpec | src/domain/etl/analyzers/breakout_analyzer.py:490-519 | the search answers nothing exactly when no candidate is the same level, else the first one that is |
| BreakoutSticky.ChooseSticky | src/domain/etl/analyzers/breakout_analyzer.py:490-519 | nothing exactly when there are no candidates; else the first candidate at the previous value's level, or the top candidate when there is none (the hysteresis test repeats the same search, so it never changes the answer) |
| BreakoutSticky.RemainingSpec | src/domain/etl/analyzers/breakout_analyzer.py:549-550 | the filter keeps exactly the candidates not at the same level as any used value |
| BreakoutSticky.SlotValueIsCandidate | src/domain/etl/analyzers/breakout_analyzer.py:540-543 | a slot always takes the level of one of the candidates |
| BreakoutSticky.FillAsWritten | src/domain/etl/analyzers/breakout_analyzer.py:536-552 | the slot loop with the source's "used" mark; one value per slot |
| BreakoutSticky.FillWithoutCandidates | src/domain/etl/analyzers/breakout_analyzer.py:538-540 | with no active zone every slot stays NaN |
| BreakoutSticky.FillFromCandidates | src/domain/etl/analyzers/breakout_analyzer.py:538-552 | every filled slot holds the level of a candidate |
| BreakoutSticky.FillDistinctLevels | src/domain/etl/analyzers/breakout_analyzer.py:544-550 | with the corrected mark, no two slots of one candle are the same level |
| BreakoutSticky.FillEmptyIffExhausted | src/domain/etl/analyzers/breakout_analyzer.py:538-552 | a slot is NaN exactly when no candidate is left once the earlier slots' levels are used |
| BreakoutSticky.FillFreshTakesTop | src/domain/etl/analyzers/breakout_analyzer.py:542-543 | a slot with no previous value takes the top-ranked candidate |
| BreakoutSticky.FillSticky | src/domain/etl/analyzers/breakout_analyzer.py:490-519 | a slot with a previous value keeps the first candidate at its level, and otherwise switches to the top candidate |
| BreakoutSticky.NearestLevelSpec | src/domain/etl/analyzers/breakout_analyzer.py:453-462 | the main level is NaN exactly when all slots are, and otherwise the slot value closest to the close, the first of equally close ones |
| BreakoutStickyExample.StickyDuplicateCounterexample | src/domain/etl/analyzers/breakout_analyzer.py:544-550 | with tolerance 1%, candidates 100, 101 and 102 and S1 = 102 before, the loop as written gives S1 = 101 and S2 = 102, which are the same level |
| BreakoutStickyExample.StickyDuplicateCorrected | src/domain/etl/analyzers/breakout_analyzer.py:544-550 | the corrected mark gives S1 = 101 and leaves S2 NaN |
| BreakoutSweep.Bucket | src/domain/etl/analyzers/breakout_analyzer.py:443-451 | bucket k lists, in input order, exactly the zones whose key is k, and only non-empty buckets exist |
| BreakoutSweep.BucketZones | src/domain/etl/analyzers/breakout_analyzer.py:443-451 | the start buckets are keyed by x0 and the end buckets by x1 |
| BreakoutSweep.ActiveAt | src/domain/etl/analyzers/breakout_analyzer.py:521-530 | the active zones at candle i are zones of that side with x0 ≤ i ≤ x1 |
| BreakoutSweep.ActiveStep | src/domain/etl/analyzers/breakout_analyzer.py:521-530 | from candle i − 1 to i the active multiset gains the zones starting at i and loses those that ended at i − 1 |
| BreakoutSweep.NothingActiveBeforeStart | src/domain/etl/analyzers/breakout_analyzer.py:521 | before the first candle nothing is active |
| BreakoutSweep.RemoveFirst | src/domain/etl/analyzers/breakout_analyzer.py:526-530 | `list.remove` takes one occurrence out of the multiset and ignores a zone that is absent |
| BreakoutSweep.CandsOfPermutation | src/domain/etl/analyzers/breakout_analyzer.py:481-488 | the candidates depend only on which zones are active, not on their order |
| BreakoutSweep.PrevSlots | src/domain/etl/analyzers/breakout_analyzer.py:521-569 | the previous candle's slots, `max_zones` of them and all NaN before the first candle |
| BreakoutSweep.SlotRow | src/domain/etl/analyzers/breakout_analyzer.py:532-569 | each candle has `max_zones` slots per side |
| BreakoutSweep.SlotRows | src/domain/etl/analyzers/breakout_analyzer.py:521-569 | one slot row per candle, each the specified row |
| BreakoutSweep.MainLevels | src/domain/etl/analyzers/breakout_analyzer.py:572-577 | each candle's main level is the nearest slot level to its close |
| BreakoutSweep.RankedLevelIsActive | src/domain/etl/analyzers/breakout_analyzer.py:532-534 | a ranked level at candle i belongs to a zone of that side active at i |
| BreakoutSweep.SlotTableProperties | src/domain/etl/analyzers/breakout_analyzer.py:521-569 | per candle and side: `max_zones` slots; a slot is NaN exactly when no candidate is left; a filled slot belongs to an active zone of that side; no two slots are the same level |
| BreakoutSweep.Activate | src/domain/etl/analyzers/breakout_analyzer.py:523-524 | the zones starting now join their side's active list |
| BreakoutSweep.Deactivate | src/domain/etl/analyzers/breakout_analyzer.py:526-530 | the zones that ended at the previous candle leave their side's active list |
| BreakoutSweep.AdvanceActive | src/domain/etl/analyzers/breakout_analyzer.py:521-530 | after both bucket loops the active lists hold exactly the zones active at candle i |
| BreakoutSweep.NextSlot | src/domain/etl/analyzers/breakout_analyzer.py:539-552 | one slot: NaN exactly when no candidate remains, else the sticky choice, which is marked used and filtered out |
| BreakoutSweep.FillSlots | src/domain/etl/analyzers/breakout_analyzer.py:536-569 | the slot loop writes the specified row into the previous-slots buffer |
| BreakoutSweep.SlotsAt | src/domain/etl/analyzers/breakout_analyzer.py:532-569 | ranking plus the slot loop give the specified row for candle i |
| BreakoutSweep.Sweep | src/domain/etl/analyzers/breakout_analyzer.py:521-569 | the candle loop computes the specified slot rows of both sides |
| BreakoutSweep.AssignSticky | src/domain/etl/analyzers/breakout_analyzer.py:464-577 | `_assign_sticky` computes the specified slot table and main levels |
| BreakoutAnalyzer.BlankTable | src/domain/etl/analyzers/breakout_analyzer.py:118-124 | the initial columns have one entry per candle |
| BreakoutAnalyzer.Analyze | src/domain/etl/analyzers/breakout_analyzer.py:581-588 | the constructor followed by `analyze` computes the specified frame |
| BreakoutAnalyzer.FrameShape | src/domain/etl/analyzers/breakout_analyzer.py:581-588 | every column has one entry per candle, and every candle has exactly `max_zones` support and resistance slots |
| BreakoutAnalyzer.NoZonesLeavesNaN | src/domain/etl/analyzers/breakout_analyzer.py:584-586 | without zones every slot and both main levels stay NaN |
| BreakoutAnalyzer.MainLevelIsNearestSlot | src/domain/etl/analyzers/breakout_analyzer.py:572-577 | the main level of each candle is the slot value nearest the close, NaN exactly when every slot is |
| BreakoutAnalyzer.SlotsComeFromZones | src/domain/etl/analyzers/breakout_analyzer.py:521-588 | each filled slot holds the level of a zone of that side, built from at least `min_pivots` pivots and active at that candle; no two slots of a candle are the same level |
| MomentumInterpreter.Interpret | src/domain/signals/interpreters/momentum_interpreter.py:22-280 | the interpreter loop computes the specified signals |
| MomentumInterpreter.RulesWellFormed | src/domain/signals/interpreters/momentum_interpreter.py:63-277 | each rule emits a valid momentum signal for the symbol, expiring after 180 days, tagged with its indicator |
| MomentumInterpreter.InterpretProperties | src/domain/signals/interpreters/momentum_interpreter.py:30-50 | an empty frame or a strategy without a momentum rule gives nothing; else at most four valid signals, one per indicator |
| MomentumInterpreter.RsiRule | src/domain/signals/interpreters/momentum_interpreter.py:63-117 | RSI below 30 gives BUY with confidence min(1, (30 − RSI)/30), STRONG below 20; above 70 gives SELL with confidence min(1, (RSI − 70)/30), STRONG above 80; nothing otherwise |
| MomentumInterpreter.MacdRule | src/domain/signals/interpreters/momentum_interpreter.py:122-178 | a MACD cross above its signal line gives BUY, a cross below gives SELL, both 0.75 STRONG; needs two rows and four present values |
| MomentumInterpreter.OscillatorRules | src/domain/signals/interpreters/momentum_interpreter.py:183-277 | Williams %R below −80 gives BUY and above −20 gives SELL, both 0.5 WEAK; stochastic RSI below 0.2 gives BUY and above 0.8 gives SELL, both 0.55 WEAK |
| StructureInterpreter.Interpret | src/domain/signals/interpreters/structure_interpreter.py:22-227 | the interpreter computes the specified signals |
| StructureInterpreter.RulesWellFormed | src/domain/signals/interpreters/structure_interpreter.py:66-224 | each rule emits a valid structure signal tagged with its zone (the gap rule carries none) |
| StructureInterpreter.InterpretProperties | src/domain/signals/interpreters/structure_interpreter.py:30-56 | an empty frame or a strategy with neither gap nor zone rules gives nothing; else at most three valid signals, at most one per zone |
| StructureInterpreter.FvgRule | src/domain/signals/interpreters/structure_interpreter.py:66-114 | the gap rule fires exactly on a gap type of 1 (BUY) or −1 (SELL), with confidence 0.7 STRONG at the close price |
| StructureInterpreter.ResistanceRule | src/domain/signals/interpreters/structure_interpreter.py:123-173 | BUY 0.8 STRONG exactly above 1.002 × the main resistance; otherwise ALERT 0.5 MODERATE exactly within 0.5% of a non-zero level |
| StructureInterpreter.SupportRule | src/domain/signals/interpreters/structure_interpreter.py:176-224 | SELL 0.8 STRONG exactly below 0.998 × the main support; otherwise ALERT 0.5 MODERATE exactly within 0.5% of a non-zero level |
| StructureInterpreter.ApproachIsNearLevel | src/domain/signals/interpreters/structure_interpreter.py:150-153 | an approach to a positive level lies within 0.5% of it on either side |
| VolumeInterpreter.Interpret | src/domain/signals/interpreters/volume_interpreter.py:23-156 | the interpreter computes the specified signals |
| VolumeInterpreter.SpikeConfidenceBounds | src/domain/signals/interpreters/volume_interpreter.py:67-73 | a spike's confidence lies in [0.6, 0.95] and never falls as the spike grows |
| VolumeInterpreter.RulesWellFormed | src/domain/signals/interpreters/volume_interpreter.py:59-153 | each rule emits a valid volume signal, expiring after 60 days, tagged with its kind |
| VolumeInterpreter.InterpretProperties | src/domain/signals/interpreters/volume_interpreter.py:31-49 | an empty frame, a frame without volume or a strategy without a volume rule gives nothing; else at most a spike and a divergence |
| VolumeInterpreter.SpikeRule | src/domain/signals/interpreters/volume_interpreter.py:59-93 | an ALERT exactly when volume exceeds twice a positive average, EXTREME exactly from four times, STRONG otherwise |
| VolumeInterpreter.ObvRule | src/domain/signals/interpreters/volume_interpreter.py:98-153 | price up with OBV not up gives SELL; price not up with OBV up gives BUY; both 0.65 MODERATE, needing two rows and four present values |
| TrendInterpreter.Interpret | src/domain/signals/interpreters/trend_interpreter.py:23-192 | the interpreter computes the specified signals |
| TrendInterpreter.RulesWellFormed | src/domain/signals/interpreters/trend_interpreter.py:56-189 | each rule emits a valid trend signal carrying the close price, tagged with its kind |
| TrendInterpreter.InterpretProperties | src/domain/signals/interpreters/trend_interpreter.py:31-50 | an empty frame or a strategy without a trend rule gives nothing; else at most three valid signals of distinct kinds |
| TrendInterpreter.EmaCrossRule | src/domain/signals/interpreters/trend_interpreter.py:62-114 | EMA 5 crossing above EMA 8 gives BUY and crossing below gives SELL, both 0.8 MODERATE; needs two rows and four present values |
| TrendInterpreter.AdxRule | src/domain/signals/interpreters/trend_interpreter.py:119-144 | an ALERT exactly when ADX exceeds 25 (0.7 STRONG above 40, else 0.6 MODERATE), bullish exactly when +DI exceeds −DI; missing DI columns read as bearish |
| TrendInterpreter.CustomTrendRule | src/domain/signals/interpreters/trend_interpreter.py:149-189 | a trend flag of 1 gives BUY and −1 gives SELL, at 0.85 STRONG; any other value gives nothing |
| VolatilityInterpreter.Interpret | src/domain/signals/interpreters/volatility_interpreter.py:22-160 | the interpreter computes the specified signals |
| VolatilityInterpreter.RulesWellFormed | src/domain/signals/interpreters/volatility_interpreter.py:58-156 | each rule emits a valid volatility signal carrying the close price, band and ATR signals of different kinds |
| VolatilityInterpreter.InterpretProperties | src/domain/signals/interpreters/volatility_interpreter.py:30-46 | an empty frame or a strategy without a volatility rule gives nothing; else at most a band signal and an ATR signal |
| VolatilityInterpreter.BollingerRule | src/domain/signals/interpreters/volatility_interpreter.py:58-104 | with truthy bands and a non-zero close: BUY exactly at or below the lower band, else SELL exactly at or above the upper band, both 0.65 MODERATE |
| VolatilityInterpreter.AtrRule | src/domain/signals/interpreters/volatility_interpreter.py:109-156 | an ATR over its 20-bar mean above 1.5 is a spike (0.7 EXTREME), below 0.7 a contraction (0.6 MODERATE), and between them nothing; a ratio needs 20 rows |
| RiskInterpreter.Interpret | src/domain/signals/interpreters/risk_interpreter.py:23-134 | the interpreter computes the specified signals |
| RiskInterpreter.RulesWellFormed | src/domain/signals/interpreters/risk_interpreter.py:56-131 | each warning is a valid risk signal carrying the close (0 when missing), tagged with its kind |
| RiskInterpreter.InterpretProperties | src/domain/signals/interpreters/risk_interpreter.py:33-44 | an empty frame, or no risk settings and no ATR, gives nothing; else at most two warnings, only ALERT or HOLD |
| RiskInterpreter.VolatilityRule | src/domain/signals/interpreters/risk_interpreter.py:56-103 | an ATR ratio above 1.5 gives ALERT 0.75 STRONG, below 0.6 gives HOLD 0.6 MODERATE, and between them nothing |
| RiskInterpreter.DataQualityRule | src/domain/signals/interpreters/risk_interpreter.py:108-131 | ALERT 0.4 WEAK exactly below 10 indicator columns, reporting the count; a frame of price columns only always draws it |
| Aggregator.Where | src/domain/signals/aggregator.py:48-81 | a filter never grows the list |
| Aggregator.Present | src/domain/signals/aggregator.py:39 | dropping `None` never grows the list |
| Aggregator.TotalScores | src/domain/signals/aggregator.py:116-130 | the loop computes the insertion-ordered type totals |
| Aggregator.CountBy | src/domain/signals/aggregator.py:299-308 | the loop computes the insertion-ordered counts |
| Aggregator.BuildAggregated | src/domain/signals/aggregator.py:263-334 | the builder computes the specified aggregated signal |
| Aggregator.Aggregate | src/domain/signals/aggregator.py:38-200 | `aggregate` computes the specified result |
| Aggregator.VoteStep | src/domain/signals/aggregator.py:116-192 | the vote steps compute the specified decision |
| Aggregator.ScoreBounds | src/domain/signals/aggregator.py:28-33 | a valid signal scores in [0, 1.25], at most 1.25 × its confidence |
| Aggregator.StrengthMonotone | src/domain/signals/aggregator.py:210-217 | the strength from a score is monotone, with cut points 0.7, 1.2 and 1.8 |
| Aggregator.DirectionalIsNonAlert | src/domain/signals/aggregator.py:101-114 | the directional filter keeps every non-ALERT signal |
| Aggregator.PresentEmpty | src/domain/signals/aggregator.py:39-43 | nothing is left exactly when every entry is `None` |
| Aggregator.FirstMaxSpec | src/domain/signals/aggregator.py:84-96 | `max(key=_score)` returns the first signal of highest score |
| Aggregator.EarliestSpec | src/domain/signals/aggregator.py:290-293 | the earliest expiry exists exactly when some signal expires, is no later than any expiry and equals one of them |
| Aggregator.ScoreTotalsSpec | src/domain/signals/aggregator.py:116-130 | one total per normalized type that occurs, equal to that type's total score; EXIT scores add to SELL |
| Aggregator.BestIsMaximal | src/domain/signals/aggregator.py:133-140 | the first ranked total is maximal, and the second is another total no higher |
| Aggregator.RiskContextSpec | src/domain/signals/aggregator.py:219-261 | the context is extreme exactly when some risk alert is EXTREME, has alerts exactly when there are risk alerts, and counts them |
| Aggregator.TotalKeyIsVoteType | src/domain/signals/aggregator.py:116-130 | a type with a total is BUY, SELL or HOLD |
| Aggregator.DecisionRule | src/domain/signals/aggregator.py:133-173 | the final score is the best total; anything but HOLD is the best type with a score of at least 0.4 that leads the second by at least 0.15; when those hold, the best type is taken, except a BUY under an EXTREME risk alert |
| Aggregator.DecisionBaseIsInput | src/domain/signals/aggregator.py:178-192 | the signal the result is built on is one of the inputs |
| Aggregator.AggregateEmpty | src/domain/signals/aggregator.py:39-43 | `aggregate` returns nothing exactly when every input is `None` |
| Aggregator.DecideNone | src/domain/signals/aggregator.py:41-114 | the vote decides something exactly when there is a signal |
| Aggregator.AggregateAllAlerts | src/domain/signals/aggregator.py:84-96 | all ALERTs give HOLD with confidence 1, built on and scored as the first best-scoring alert |
| Aggregator.AggregateOutcome | src/domain/signals/aggregator.py:150-200 | the result is BUY, SELL or HOLD, never BUY under an EXTREME risk alert, with the strength its final score maps to |
| Aggregator.AggregateConfidence | src/domain/signals/aggregator.py:278-285 | the result's confidence is in [0, 1]: 1 for HOLD, else at least the base signal's |
| Aggregator.BuildExpiry | src/domain/signals/aggregator.py:290-293 | the result expires at the earliest expiry, since the fallback base signal is one of the inputs |
| Aggregator.AggregateExpiry | src/domain/signals/aggregator.py:290-293 | `aggregate`'s result expires at the earliest input expiry |
| Aggregator.CountedSpec | src/domain/signals/aggregator.py:299-308 | a tally has one entry per key and sums to the number of signals |
| Aggregator.AggregateCounts | src/domain/signals/aggregator.py:296-319 | the type and the source counts each sum to the number of signals, which the meta records along with `aggregated` |
| Constraints.ValidateWeights | src/domain/portfolio/risk/constraints.py:27-67 | the loop computes the specified validated table |
| Constraints.ClipBounds | src/domain/portfolio/risk/constraints.py:52-62 | the clamps give at most max(0, w), the global maximum and the symbol's maximum, and leave a positive clamped weight unchanged |
| Constraints.ValidatedAppend | src/domain/portfolio/risk/constraints.py:47-65 | one more entry is skipped when blacklisted or clamped to ≤ 0, else stored under its symbol |
| Constraints.ValidatedEntry | src/domain/portfolio/risk/constraints.py:47-65 | a symbol is kept exactly when it is an input, not blacklisted and clamped above 0; its value is that clamped weight; keys stay unique |
| Constraints.ValidatedBounds | src/domain/portfolio/risk/constraints.py:49-65 | every output weight belongs to a non-blacklisted input, is positive and respects every bound |
| Constraints.ValidateIdempotent | src/domain/portfolio/risk/constraints.py:27-67 | validating an already validated table changes nothing |
| Constraints.MaxPositionsIgnored | src/domain/portfolio/risk/constraints.py:44-45 | `max_positions` has no effect |
| Constraints.UnconstrainedKeepsPositive | src/domain/portfolio/risk/constraints.py:13-24 | with default constraints a positive weight passes unchanged and any other is dropped |
| Constraints.WeightAboveOneKept | src/domain/portfolio/risk/constraints.py:47-66 | with default constraints a weight of 2.0 is returned unchanged: the code applies no upper clamp at 1 |
| PortfolioService.CalculateTotalValue | src/domain/portfolio/portfolio_service.py:183-204 | total value is cash plus the priced holdings |
| PortfolioService.HoldingsValueSpec | src/domain/portfolio/portfolio_service.py:183-204 | with non-negative quantities and prices the holdings value is non-negative |
| PortfolioService.UnpricedIgnored | src/domain/portfolio/portfolio_service.py:195-199 | a symbol without a price adds nothing |
| PortfolioService.SizeBuy | src/domain/portfolio/portfolio_service.py:107-173 | the BUY steps compute the specified buy size |
| PortfolioService.ComputeOrderSize | src/domain/portfolio/portfolio_service.py:37-177 | `compute_order_size` computes the specified size |
| PortfolioService.NoTradeCases | src/domain/portfolio/portfolio_service.py:48-64 | HOLD, a missing (`None`) or non-positive price, a missing portfolio and any type other than BUY or SELL give 0; a NaN price is `None` here, unlike the source (see "## Left out") |
| PortfolioService.SellClosesPosition | src/domain/portfolio/portfolio_service.py:86-95 | SELL sells the whole positive holding, else 0; a sell size is never positive |
| PortfolioService.ValidatedWeightBounds | src/domain/portfolio/portfolio_service.py:155-160 | validating the one-entry incremental weight keeps it within [0, w], unchanged by default |
| PortfolioService.ScaleRoundTrip | src/domain/portfolio/portfolio_service.py:150-173 | converting units to a weight and back gives the units |
| PortfolioService.ScaleBounds | src/domain/portfolio/portfolio_service.py:162-173 | the weight-to-units conversion is monotone and non-negative |
| PortfolioService.BuySizeBounds | src/domain/portfolio/portfolio_service.py:116-173 | no shortfall or no cash gives 0; otherwise raw units × price is at most the cash and the shortfall, and the final size lies in [0, raw], equal to raw by default |
| PortfolioService.BuyRule | src/domain/portfolio/portfolio_service.py:99-173 | BUY needs a positive total value and target weight, then trades the buy size; never negative |
| Ranking.RankReports | src/domain/strategies/services/ranking.py:6-16 | the ranking is a permutation of the reports |
| Ranking.RanksFirstIsPreorder | src/domain/strategies/services/ranking.py:15 | the key order is a total preorder |
| Ranking.RankedOrder | src/domain/strategies/services/ranking.py:13-16 | along the ranking the Sharpe ratio never rises; at equal Sharpe the drawdown never falls; at equal both the return never rises |
| Ranking.BestFirst | src/domain/strategies/services/ranking.py:13-16 | the first report has the highest Sharpe, and among those the smallest drawdown |
| Ranking.RankIsStable | src/domain/strategies/services/ranking.py:13-16 | reports with equal keys keep their input order |
| FairValueGap.Bodies | src/domain/etl/analyzers/fair_value_gap_analyzer.py:60-61 | one body per candle |
| FairValueGap.Detected | src/domain/etl/analyzers/fair_value_gap_analyzer.py:39-86 | one result cell per candle |
| FairValueGap.CountType | src/domain/etl/analyzers/fair_value_gap_analyzer.py:92-94 | a count is at most the number of rows |
| FairValueGap.SummaryOf | src/domain/etl/analyzers/fair_value_gap_analyzer.py:88-111 | the total is bullish plus bearish, and with no gaps both averages are 0 |
| FairValueGap.FairValueGapAnalyzer.constructor | src/domain/etl/analyzers/fair_value_gap_analyzer.py:6-37 | the copied frame with every result column at "no gap" |
| FairValueGap.FairValueGapAnalyzer.DetectFvg | src/domain/etl/analyzers/fair_value_gap_analyzer.py:39-86 | every row from 2 on that completes a gap gets it written; every other row is left as it was |
| FairValueGap.FairValueGapAnalyzer.GetFvgSummary | src/domain/etl/analyzers/fair_value_gap_analyzer.py:88-111 | the summary of the current columns |
| FairValueGap.FairValueGapAnalyzer.Analyze | src/domain/etl/analyzers/fair_value_gap_analyzer.py:113-119 | one detection pass, returned with the original index and one result row per input row |
| FairValueGap.AvgBodyPositive | src/domain/etl/analyzers/fair_value_gap_analyzer.py:57-65 | the average body is always positive, and equals the recent mean when that is positive |
| FairValueGap.GapRules | src/domain/etl/analyzers/fair_value_gap_analyzer.py:67-86 | bullish exactly when the third low is above the first high with a large middle body; bearish exactly when the third high is below the first low and it is not bullish; bounds and positive size as stated |
| FairValueGap.DetectionFromBlank | src/domain/etl/analyzers/fair_value_gap_analyzer.py:34-86 | a pass over fresh columns gives `Detected`, and a second pass changes nothing |
| FairValueGap.DetectedCells | src/domain/etl/analyzers/fair_value_gap_analyzer.py:39-86 | types are −1, 0 or 1; rows 0 and 1 are never flagged; a row has a size exactly when flagged |
| FairValueGap.SummaryAverages | src/domain/etl/analyzers/fair_value_gap_analyzer.py:92-111 | with gaps present, a direction's average is NaN exactly when it has none, and is otherwise positive |
| FairValueGap.DetectedSummary | src/domain/etl/analyzers/fair_value_gap_analyzer.py:113-119 | the same for the summary after detection |
| FakeBroker.Broker.constructor | src/infrastructure/broker/broker_fake.py:26-36 | not authenticated, no orders |
| FakeBroker.Broker.Auth | src/infrastructure/broker/broker_fake.py:41-43 | authenticated, orders unchanged |
| FakeBroker.Broker.EnsureAuth | src/infrastructure/broker/broker_fake.py:45-47 | authenticated, orders unchanged |
| FakeBroker.Broker.PlaceOrder | src/infrastructure/broker/broker_fake.py:73-130 | for a fresh broker id: a missing price fails with nothing recorded; otherwise returns the executed order and the booked portfolio and stores the order under its broker id |
| FakeBroker.Broker.GetOrder | src/infrastructure/broker/broker_fake.py:132-136 | the stored order or NotFound, nothing changed |
| FakeBroker.Broker.CancelOrder | src/infrastructure/broker/broker_fake.py:138-152 | the answer and the new table are those of `Cancel` |
| FakeBroker.Broker.Positions | src/infrastructure/broker/broker_fake.py:157-184 | the position records of the portfolio, nothing changed |
| FakeBroker.ExecutedIsFilled | src/infrastructure/broker/broker_fake.py:88-98 | the executed order is FILLED (stored value "filled") in full at the price under the new broker id, with nothing remaining and the caller's fields kept |
| FakeBroker.LedgerBuy | src/infrastructure/broker/broker_fake.py:100-114 | BUY pays price × quantity and adds the quantity |
| FakeBroker.LedgerSell | src/infrastructure/broker/broker_fake.py:116-118 | SELL receives price × quantity and sets the holding to max(0, held − quantity) |
| FakeBroker.LedgerFrame | src/infrastructure/broker/broker_fake.py:108-126 | other symbols are untouched, keys keep their order (a new symbol goes last) and stay unique |
| FakeBroker.LedgerConservesValue | src/infrastructure/broker/broker_fake.py:100-126 | a BUY, or a SELL of no more than is held, keeps cash plus the holding at the fill price unchanged |
| FakeBroker.LookupAfterPlace | src/infrastructure/broker/broker_fake.py:129-136 | a placed order is found under its id, and other ids are unaffected |
| FakeBroker.CancelOutcome | src/infrastructure/broker/broker_fake.py:138-152 | an unknown id fails; a FILLED order comes back unchanged; any other order is stored and returned CANCELLED; the ids are unchanged |
| FakeBroker.CancelIdempotent | src/infrastructure/broker/broker_fake.py:138-152 | cancelling twice is cancelling once |
| FakeBroker.PlacedOrderStaysFilled | src/infrastructure/broker/broker_fake.py:88-152 | a placed order cannot be cancelled: it comes back FILLED and the table is unchanged |
| FakeBroker.PositionRecordsSpec | src/infrastructure/broker/broker_fake.py:163-182 | exactly the held, priced positions are reported, valued at the price with zero unrealized P&L |
| OrderDto.NewOrder | src/domain/trading/dtos/order_dto.py:34-56 | creation succeeds exactly for a positive quantity, with status PENDING and zero fills |
| OrderDto.NewOrderIsOpen | src/domain/trading/dtos/order_dto.py:58-66 | a new order is not filled and its whole quantity remains |
| OrderDto.SideRoundTrip | src/domain/trading/dtos/order_dto.py:17-20 | sides round-trip through their values, and only "buy" and "sell" parse |
| OrderDto.StatusRoundTrip | src/domain/trading/dtos/order_dto.py:23-31 | statuses round-trip through their values |
| OrderDto.TypeRoundTrip | src/domain/trading/dtos/order_dto.py:9-14 | order types round-trip through their values |
| Settings.ValidateDatabaseUrl | src/infrastructure/config/settings.py:134-139 | accepted exactly with one of the three PostgreSQL prefixes and returned unchanged; empty is EmptyUrl, else NotPostgres |
| Settings.ReplaceWithoutOccurrence | src/infrastructure/config/settings.py:112-117 | `replace` leaves a string without the pattern unchanged |
| Settings.ReplaceGrows | src/infrastructure/config/settings.py:113-117 | a longer replacement lengthens every string with an occurrence |
| Settings.AsyncUrlHasNoPlain | src/infrastructure/config/settings.py:112-117 | the rewritten URL never holds `postgresql://` |
| Settings.AsyncUrlUnchanged | src/infrastructure/config/settings.py:117 | a URL with neither driver spelling is returned unchanged |
| Settings.ClientUrlIdempotent | src/infrastructure/database/client.py:27 | the client's plain rewrite is idempotent |
| Settings.ClientKeepsAsyncUrl | src/infrastructure/database/client.py:27 | the client's second rewrite leaves `async_database_url` unchanged |
| Settings.EnvironmentChecks | src/infrastructure/config/settings.py:119-129 | exactly one of the three checks holds, except for staging, where none does |

## Left out

- I/O, the database, `async` and logging are left out. They include the
  portfolio repository, the indicator helpers `_ensure_atr` and
  `_ensure_rsi_macd`, and the ignored-alerts log of the aggregator.
  - The ATR series, prices, the stored portfolio, "now", UUIDs and broker
    ids are parameters.
  - Creation and update timestamps are not modelled.
- Floating point is modelled as exact reals, with NaN as `None`. There is no
  rounding: the interpreters' rounded meta values are kept unrounded. These
  are the RSI and Williams %R values (2 places) and the StochRSI value
  (3 places) of the momentum interpreter, the ADX of the trend interpreter,
  the ATR ratios of the volatility and risk interpreters and the volume
  multiplier (2 places each). The
  candles of the FVG analyzer and of the breakout engine (`Bar`: high, low
  and close) are assumed to hold no NaN, so the NaN handling of the rolling
  max/min and of the median close is not modelled; NaN in the breakout
  engine is modelled only for the ATR series, the band and the slots.
- `BreakoutConfig.ParseTimeframe` and `BreakoutConfig.ParseBandMode`: Python's
  `strip()` and `lower()` are modelled on ASCII only (the whitespace of
  `str.isspace` below 128 and the letters A-Z); non-ASCII whitespace and case
  mappings are not modelled, and a `None` argument is the empty string.
- The aggregator's nested meta dictionaries (counts, decision, risk context)
  are fields of the `Aggregated` record, not entries of `meta`.
- `FakeBroker.Broker.PlaceOrder` and `FakeBroker.Broker.Positions`: both call
  the price provider's `get_lastest_price` without `await`. The provider
  wired in is async, so each call yields a coroutine, never `None` or a
  number. As written, the `None` checks in place_order and positions can
  never fire. A TypeError is raised instead: in place_order at
  `price * order.quantity`, and in positions at `qty * price` for every held
  position. The model takes the price each call evidently means, an
  `Option<real>`; it returns priced records and executed orders where the
  source raises.
  Its `brokerId` parameter stands for the fresh `uuid4()`, so the method
  requires that no stored order has that id.
- `BreakoutZones.BuildZones`, `BreakoutSweep.AssignSticky` and
  `BreakoutAnalyzer.Analyze` use the corrected merge and the corrected "used"
  mark from "## Findings", and so do the members they are built from:
  `BreakoutMerge.MergeCloseBreaks`, `BreakoutMerge.MergeSortedZones`,
  `BreakoutSweep.NextSlot`, `BreakoutSweep.FillSlots`,
  `BreakoutSweep.SlotsAt`, `BreakoutSweep.Sweep`, `BreakoutSweep.SlotRow`,
  `BreakoutSweep.SlotRows` and `BreakoutSweep.SlotTableProperties`. On
  those two inputs they differ from the program
  as written: a merged chain's survivor keeps the latest end, and no two slots
  repeat a level. The as-written behaviour is modelled by
  `BreakoutMerge.MergeCloseBreaksAsWritten` and `BreakoutSticky.FillAsWritten`.
- `get_portfolio`, `get_instruments` and `database_url` are plain reads with
  no logic, so they are left out. So are `BacktestReport.print_summary`
  (console output) and the column-name parameters of the FVG analyzer.
- `Constraints.ValidateWeights`: the function's docstring promises a clamp
  to [0, 1], but the code clamps only at 0 and at the configured caps. The
  model follows the code, so with no cap a weight above 1 passes unchanged
  (`Constraints.WeightAboveOneKept`).
- `BreakoutConfig.NormalizeParams`: `pivot_window` and `max_zones` are
  natural numbers here, while the source accepts any `int`. The model cannot
  represent a negative value. In the source, a negative `pivot_window` makes
  the centred rolling window raise a ValueError. A negative `max_zones`
  behaves like 0: every slot loop is empty and the slot lists are `[]`.
- `PortfolioService.ComputeOrderSize`: the service's default constraints are
  a parameter `c`. A signal price of NaN is `None` in the model, like a
  missing price, so it sizes to 0 (`PortfolioService.NoTradeCases`). The
  source's guard `price is None or price <= 0` does not catch NaN. A NaN
  price can reach a signal from a NaN last close, and with it the source
  returns −held for a SELL with a positive holding, and NaN for a BUY.
- `StructureInterpreter.FvgRule`: on a frame without a `Close` column the
  source's `float(latest.get("Close"))` raises a `TypeError` once a gap of
  type ±1 is seen; the model does not model that error and emits the BUY/SELL
  signal with no price (`price == None`), as it does for a NaN close. (A
  missing gap size cannot raise: it is guarded and stored as `None`.)
- Some source code has no effect as written. The model reproduces that
  behaviour and does not mention the dead code:
  - the timeframe-tuned `band_atr_mult` is computed but never used (the ATR
    band uses the configured multiplier);
  - `band_mode` values other than "atr" take the percentage band;
  - the `y1 == -1` branch of the polarity loop can never run;
  - the hysteresis comparison in `choose_sticky` never changes the answer
    (`BreakoutSticky.ChooseSticky`);
  - the directional filter keeps every non-ALERT signal
    (`Aggregator.DirectionalIsNonAlert`).
- `Settings.AsyncUrl` is not idempotent for a URL holding both
  `postgresql://` and `postgresql+psycopg://`. The client reapplies only the
  plain rewrite, and for that one idempotence is proved
  (`Settings.ClientKeepsAsyncUrl`).
- The frame index of the FVG analyzer is a `seq<int>` carried through
  unchanged.

## Findings

| source | as written | input that shows it | evidently intended | confidence | as-written member | corrected member |
|---|---|---|---|---|---|---|
| src/domain/etl/analyzers/breakout_analyzer.py:318-334 | a merged zone's x1 extension is written to row i − 1 even when that row was itself dropped, so a chain of three merges loses the third break | three supports at level 100 breaking at 10, 12 and 14 with separation 5 merge into one zone ending at 12 | the surviving zone ends at the chain's latest break, 14 | not executed | BreakoutMergeExample.MergeChainCounterexample | BreakoutMergeExample.MergeChainCorrected |
| src/domain/etl/analyzers/breakout_analyzer.py:544-550 | the "used" mark is the first candidate at the same level as the chosen value, not the value itself, so a later slot can repeat a level | tolerance 1%, ranked candidates 100, 101 and 102, previous S1 = 102: S1 = 101 and S2 = 102, and 101 and 102 are the same level | no two slots of a candle hold the same level (S2 stays NaN) | not executed | BreakoutStickyExample.StickyDuplicateCounterexample | BreakoutStickyExample.StickyDuplicateCorrected |
