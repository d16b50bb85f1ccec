# Verified model of a trading system's stateful core

This project models six components of a Go trading backend and proves what they promise. To verify it, run
`dafny verify dfyconfig.toml` in this directory.

| component | modules |
|---|---|
| Indicator engine: rolling forms, snapshots, restart, reload | `Indicators`, `IndicatorObjects`, `IndicatorEngine`, `EngineSnapshot`, `Schedule`, `Indengine`, `Restart` |
| Exit watcher: level book, pre-target rule, runner, latch, engine | `Levels`, `LevelBook`, `BookContents`, `PreReject`, `Runner`, `RunnerLadder`, `RunnerHistory`, `Mirror`, `Tracker`, `TrackerHistory`, `ExitEngine`, `EngineHistory` |
| Gateway: replay rings, gap backfill, client queues, signals, epochs | `ReplayBuffer`, `Hub`, `HubHistory`, `ClientQueue`, `SignalFanout`, `Epoch` |
| Archiver: export, upload, manifest, re-merge, prune | `Archiver`, `ArchiverService` |
| Bars and P&L: buckets, aggregation, pairing, daily views | `TfBars`, `TradePairing`, `DailyViews` |
| Exit-policy arbiter | `Arbiter`, `ArbiterHistory` |

How it is built:

* Each component has a specification on values (a step function, a fold or a run) about which the theorems are proved, and
  a class or a method in the source's own form whose `ensures` ties it to that specification. Map iteration in Go has no
  order; the methods pick any order and the theorems hold for all.
* The step functions are tied down from outside. `RunnerHistory`, `TrackerHistory`, `EngineHistory`, `HubHistory`,
  `ArbiterHistory` and `BookContents` say what each component ends up doing in terms of what happened before alone - the
  moves, ticks, sends, listings and bars - in both directions and without naming the step that does it; `PreReject` does so
  for its exits, `Restart.RunService` for the service object, and the archiver's methods by what the stores let succeed.
* Concurrency is interleaving: the client queue, the signal fan-out, the hub, the arbiter and the archiver are state
  machines whose steps are the source's critical sections and store effects, and the theorems are about every run. Crashes
  and failures are steps too.
* Floats are `real`. The ladder, lock and level arithmetic is in integer paise, with the truncating conversions written out;
  Go's truncating division and remainder are functions of their own. Times are integers; a zero time is `None`, 0 or the
  year-1 constant, as each module says.

Results where the code does less than its comments or callers may expect, each with the exact condition or a concrete run:

* A restart is exact if and only if nothing it delivers jumps over a candle (`Schedule.RestartEquivalence`,
  `Schedule.WarmUpWindow`, `Restart.RestartTheorem`). The SQLite warm-up must start no later than the first candle the
  restored indicator lacks; the comment in service.go calls any overlap harmless, but a window that starts later moves the
  indicator's gate past candles it never applied. And Redis must still hold the first candle past both snapshot and
  warm-up: its streams are capped (`store/redis/writer.go:448-466`), so without a SQLite reader a snapshot older than the cap
  leaves a gap for good.
* `Peek` of EMA before its seed returns the price, and `Peek` of RSI misses on the candle that completes the seed
  (`EmaPeekExact`, `RsiPeekExact`).
* Broken levels climb as long as the tolerance is never more than one paisa under an earlier one; every larger drop admits a run that
  later breaks a level no farther in favour (`RunnerLadder.LadderSlips`).
* The archiver keeps every row as long as each step meets a guard on the manifest, the marks and the run's position
  (`NoRowLost`). `LateWriteExact`, `PassedDayExact` and `DroppedMarkExact` say exactly when a step keeps the protocol's
  invariant, `CatchUpExact` when stopping at the bound loses nothing, `RearchiveCovers` when a re-merge covers its day; where
  they say "whatever rows there are" the guard is the weakest a run can check without reading the rows. Concrete losing
  runs: a run that starts 400 days or more behind (`CatchUpBoundLoses`), a mark that cannot be read (`UnreadMarkLoses`), a
  late row whose table the current run has read already (`LateRowInRunIsLost`), rows committed before a run and marked
  after it or never (`MarkTooLateLoses`), and a crash that leaves a merged file behind (`StaleCacheLoses`).
* Two minute evaluations in flight judge a position both took independently of the latch (`SharedDecides`), so it can decide
  twice (`DecidesAgain`, `SameMinuteDecidesTwice`); without such a shared position it decides at most once (`DecidesOnce`).
* After the fractal window changes during a day the swing list is a batch scan again if and only if it was one for the new
  window at the change (`WindowChangeExact`); it may end as the batch scan of no window at all (`WindowChangeShows`).
* A merged list whose prices, labels, tags and touches are unchanged is not replaced, so its ages may be those of an earlier
  rebuild (`LevelBook.Rebuild` says exactly when, `KeptAgeIsStale` shows it); the runner raises its lock by age.
* Aggregating in two steps can misplace bars from before 1970 between clock-aligned and session-aligned timeframes
  (`BucketComposes`, `TwoStepsMisplace`).
* A backfill answer marked complete is exact within one life of its channel. A channel evicted and re-created since the
  client's last envelope counts from 1 again in the same epoch, and a request that starts past 1 is then told complete though
  the new life's first envelopes are missing (`EvictionGoesUnnoticed`; the comment on `sweepIdleChannels` says such a client
  gets complete=false). `ResumeExact` is the exact condition: nothing is missing if and only if there was no eviction.
* Rules of one name share a streak, so a plan with two of them can decide early (`SharedNameConfirmsEarly`); the repository
  itself only builds plans of one rule (`exitpolicy/config.go:124`), which `DecidesOnce` covers in full.

## Model

| member | source | states |
|---|---|---|
| `Indicators.SmaIsWindowMean` | backend/internal/indicator/sma.go:26-49 | For every history the ring and running sum give exactly the mean of the last `period` closes once ready, and 0 before |
| `Indicators.SmaRunningSum` | backend/internal/indicator/sma.go:26-45 | At every point the running sum is the sum of the last min(count, period) closes |
| `Indicators.EmaIsWeighted` | backend/internal/indicator/ema.go:25-47 | The recursive EMA with its SMA seed equals the closed form: decayed seed mean plus alpha times the decayed later closes, alpha = 2/(period+1) |
| `Indicators.SmmaIsWeighted` | backend/internal/indicator/smma.go:21-40 | The same closed form with alpha = 1/period for SMMA |
| `Indicators.RsiIsWilder` | backend/internal/indicator/rsi.go:23-78 | RSI is 100 - 100/(1 + gains/losses) of the smoothed averages of the per-step gains and losses, for every history |
| `Indicators.AverageRange` | backend/internal/indicator/ema.go:25-47 | A ready SMA, EMA or SMMA lies between any bounds on the closes fed |
| `Indicators.RsiRange` | backend/internal/indicator/rsi.go:23-78 | A ready RSI lies in 0..100 |
| `Indicators.SmaPeekExact` | backend/internal/indicator/sma.go:51-59 | `Peek(x)` equals the value after `Update(x)` for every price exactly when at most one close is missing |
| `Indicators.SmmaPeekExact` | backend/internal/indicator/smma.go:42-48 | The same exact condition for SMMA |
| `Indicators.EmaPeekExact` | backend/internal/indicator/ema.go:49-59 | EMA's `Peek` is exact exactly from the seed on, or for period 1: before the seed it returns the price itself |
| `Indicators.RsiPeekExact` | backend/internal/indicator/rsi.go:80-100 | RSI's `Peek` is exact except for the candle that completes the seed |
| `Indicators.RestoreSnapshot` | backend/internal/indicator/sma.go:73-101 | Snapshot and restore give back the whole state of every indicator |
| `IndicatorObjects.SmaObject.Update` | backend/internal/indicator/sma.go:26-45 | The in-place ring update (overwrite, advance, running sum) does what the value-level update does |
| `IndicatorObjects.SmaObject.Reset` | backend/internal/indicator/sma.go:62-70 | A reset average is in the state of a new one |
| `IndicatorObjects.SmaObject.RestoreFromSnapshot` | backend/internal/indicator/sma.go:88-101 | Restoring replaces the state by the snapshot's and shares no ring with it |
| `IndicatorObjects.RsiObject.Update` | backend/internal/indicator/rsi.go:23-74 | The in-place update of the two averages, in all three phases |
| `IndicatorEngine.ProcessSlot` | backend/internal/indicator/engine.go:66-118 | A candle moves exactly the slots of its own timeframe and token, each through its own gate |
| `IndicatorEngine.FeedIsPerSlot` | backend/internal/indicator/engine.go:96-112 | Feeding the engine any candles feeds each slot the bars of its own stream and nothing else |
| `IndicatorEngine.IsReplayExact` | backend/internal/indicator/engine.go:122-137 | On a known token with indicators `IsReplay` holds exactly when `Process` would change nothing |
| `IndicatorEngine.Engine.Process` | backend/internal/indicator/engine.go:66-118 | The nested-map update refines the value-level step and reports one result per slot that moved |
| `IndicatorEngine.Engine.ProcessPeek` | backend/internal/indicator/engine.go:142-172 | Live values for a forming candle; nothing in the engine changes |
| `IndicatorEngine.ResultsExact` | backend/internal/indicator/engine.go:96-118 | The results are those of the configured indicators the candle moved, each with its value after the candle |
| `IndicatorEngine.PeeksExact` | backend/internal/indicator/engine.go:142-172 | The live results are those of the token's indicators, each with its peek at the forming close |
| `EngineSnapshot.JoinSplit` | backend/internal/indicator/snapshot.go:72-114 | Every token key survives the split into exchange and token and the join back |
| `EngineSnapshot.RestoreRoundTrip` | backend/internal/indicator/snapshot.go:120-187 | Restoring any snapshot under any new configs: an indicator both have keeps state and gate, any other starts fresh, for every token |
| `EngineSnapshot.SetsEqualIsSetEquality` | backend/internal/indicator/reload.go:131-145 | Without duplicates the one-sided comparison is set equality |
| `EngineSnapshot.ReloadSlot` | backend/internal/indicator/reload.go:16-117 | A reload keeps state and gate of every indicator both configs have and starts every other one fresh |
| `EngineSnapshot.RecreatedMeans` | backend/internal/indicator/reload.go:16-117 | A timeframe counts as recreated, and makes a reload replay, exactly when it is new or an indicator was added to it or dropped from it |
| `Schedule.ScheduleExact` | backend/internal/indicator/engine.go:96-118 | A slot that began at bar z ends as if fed bars[z..] without interruption exactly when the deliveries that take it to the last bar, repeats allowed, never jump over a bar |
| `Schedule.RestartEquivalence` | backend/internal/indicator/restorer.go:73-118 | State from bars[z..k], warm-up bars[a..b], replay of the retained bars[r..n] past a checkpoint no later than k, then any consumption to the last bar: the uninterrupted state from bar z if and only if (a <= k or a = b), (r is not past both, or r = n), and the consumption has no gap |
| `Schedule.RestartAdded` | backend/internal/indicator/restorer.go:73-118 | An indicator added between snapshot and restart ends as if configured since the first bar it is fed, of the warm-up, the replay or live, if and only if nothing after that jumps over a bar |
| `Schedule.WarmUpWindow` | backend/internal/store/sqlite/reader.go:127-154 | With the last maxPeriod of b stored candles as warm-up the restart is exact if and only if at most maxPeriod stored candles are missing from the snapshot, Redis still holds the first candle past both, and consumption has no gap |
| `Schedule.ReloadKept` | backend/internal/indengine/api.go:105-132 | A kept indicator replayed from entry r on is as if no reload had happened exactly when the retained history reaches back to the first entry it lacks, or is empty, and consumption has no gap |
| `Schedule.ReloadAdded` | backend/internal/indengine/api.go:105-132 | An added indicator is as if configured since the start of the replayed history, or since the first live bar when there is none, exactly when consumption has no gap |
| `Indengine.CheckpointIsGreatest` | backend/internal/indengine/service.go:357-396 | Whatever the order of deliveries and whatever checkpoint they start from, the checkpoint of each stream is the greatest of its old value and the finalized entry IDs processed; other streams keep theirs |
| `Indengine.Service.Apply` | backend/internal/indengine/service.go:357-374 | One candle through the engine; only a finalized stream entry advances its own checkpoint |
| `Indengine.Service.SnapshotLocked` | backend/internal/indengine/snapshot.go:54-67 | State and checkpoint are captured together |
| `Indengine.Service.RestoreEngine` | backend/internal/indengine/service.go:207-250 | Restore or cold start, then warm-up from SQLite, as a function of snapshot, configs and stores |
| `Indengine.Service.CatchUp` | backend/internal/indengine/service.go:269-352 | Per-stream delta replay after the checkpoint, or a full replay when there is none, of which every entry goes through the engine and advances the checkpoint of its own stream |
| `Indengine.Service.ReloadLocked` | backend/internal/indengine/api.go:105-132 | Swap, then a replay of every stream when any timeframe is new or changed, which advances the checkpoints; without a replay they stay |
| `Indengine.MaxPeriodIs` | backend/internal/indicator/restorer.go:79-89 | The warm-up window is the largest period any timeframe configures, and 0 only when there is none |
| `Restart.FreshSynced` | backend/internal/indengine/service.go:50-60 | A new engine and an empty checkpoint are in step, whatever entry the stream will start at |
| `Restart.LiveKeepsSynced` | backend/internal/indengine/service.go:97-172 | Any gap-free live delivery, repeats and other streams included, keeps the checkpoint no later than the state, so a snapshot taken anywhere is consistent |
| `Restart.DeltaOfStream` | backend/internal/indengine/service.go:297-352 | The replay of all streams delivers, of each stream, the entries still retained past its own checkpoint, in order, even when the checkpoint's entry is trimmed |
| `Restart.RestartTheorem` | backend/internal/indengine/service.go:207-352 | Service restart: snapshot at any point of a run that began at any entry, restore under any configs that list the indicator, SQLite warm-up, replay of what Redis still holds, consumption of the rest: the slot ends in the uninterrupted run's state if and only if none of these jumps over a candle |
| `Restart.RestartKeepsSynced` | backend/internal/indengine/service.go:207-396 | After such a restart engine and checkpoint are in step again, so any number of restarts compose |
| `Restart.RestartAddedTheorem` | backend/internal/indengine/service.go:207-352 | The same restart for an indicator the snapshot lacks: as if configured since the first candle it is fed, of the warm-up, the replay or live, if and only if nothing after that jumps over a candle |
| `Restart.RestartAddedSynced` | backend/internal/indengine/service.go:207-396 | Such an indicator is in step with the checkpoint from then on, so later restarts keep it |
| `Restart.WarmUpOfStream` | backend/internal/indicator/restorer.go:73-118 | Of each stream the warm-up feeds what the store returned for its timeframe and token, once, and nothing when its timeframe is not configured |
| `Restart.RunService` | backend/internal/indengine/service.go:207-374 | The service object itself, restored from a saved snapshot, warmed up over the largest period, caught up and fed the rest: engine and checkpoint are in step at the end of the stream if and only if nothing jumped over a candle |
| `Restart.ReloadKeepsSynced` | backend/internal/indengine/api.go:105-132 | A reload, with or without its replay, leaves a kept indicator in step with the checkpoint unless Redis lacks a candle it has not applied |
| `Restart.ReloadTheorem` | backend/internal/indengine/api.go:105-132 | Service reload: a kept indicator ends as if no reload happened exactly when Redis still holds the first candle it lacks, or replays none; an added one as if configured from the first candle it is fed |
| `Restart.ReloadService` | backend/internal/indengine/api.go:105-132 | The service object itself over a reload: a kept indicator stays in step with the checkpoint, replayed or not; an added one has been fed exactly what Redis still holds |
| `Levels.FractalAt` | backend/internal/exitwatch/levels.go:270-284 | The neighbour loop decides exactly whether the bar's high (low) is strictly beyond the k bars on each side |
| `Levels.BandsPartition` | backend/internal/exitwatch/levels.go:398-428 | Every raw level falls in exactly one band, in order |
| `Levels.BandsApart` | backend/internal/exitwatch/levels.go:398-428 | Bands are at most mergeTol wide and start more than mergeTol apart |
| `Levels.MergeSorted` | backend/internal/exitwatch/levels.go:398-428 | Merged prices strictly increase |
| `Levels.MergeOptimal` | backend/internal/exitwatch/levels.go:398-428 | No set of mergeTol-wide intervals covering the raw prices is smaller than the number of merged levels |
| `Levels.MergeIsCover` | backend/internal/exitwatch/levels.go:398-428 | The bands themselves are such a cover, so the bound is attained |
| `Levels.MergeOne` | backend/internal/exitwatch/levels.go:402-427 | One round of the loop: label of highest priority, oldest age, any strong, tags with the label first, most touches of exactly the band |
| `Levels.MergeLevels` | backend/internal/exitwatch/levels.go:398-428 | The whole clustering loop computes the band-by-band merge |
| `Levels.NextLevelNearest` | backend/internal/exitwatch/levels.go:467-482 | On a sorted list the scan finds the nearest level more than tol ahead, and none only when there is none |
| `LevelBook.IncrementalIsBatch` | backend/internal/exitwatch/levels.go:255-265 | For a fixed window the swing list built one bar at a time is the batch scan of all bars, every eligible index judged once |
| `LevelBook.WindowChangeExact` | backend/internal/exitwatch/levels.go:158-174 | After the window is changed during the day the swing list is the batch scan with the new window at any later bar if and only if it was so at the change |
| `LevelBook.WindowChangeShows` | backend/internal/exitwatch/levels.go:255-265 | A day whose window goes from 1 to 2 after three bars ends with a swing list that is the batch scan of no window |
| `LevelBook.LevelBook.Configure` | backend/internal/exitwatch/levels.go:158-174 | A reload recuts the higher timeframes; from then on `steady` says whether the kept swings are a batch scan, and every later bar leaves that as it is |
| `LevelBook.OrbKeepsAgreeing` | backend/internal/exitwatch/levels.go:235-252 | An opening range that is its bars' own when its length is set stays so over any later bars |
| `LevelBook.OrbCatchesUp` | backend/internal/exitwatch/levels.go:235-252 | One that is not may come to agree again, so only that direction holds |
| `LevelBook.OpeningPrices` | backend/internal/exitwatch/levels.go:235-252 | The streamed opening range is the highest high and lowest low of the opening bars |
| `LevelBook.OpeningDone` | backend/internal/exitwatch/levels.go:235-252 | It is done exactly when its last minute is in or a later bar follows one of its bars |
| `LevelBook.TrimHtf` | backend/internal/exitwatch/levels.go:320-338 | Higher-timeframe bars are cut to the last sessions and their swings are the batch scan of what is left |
| `LevelBook.AddAll` | backend/internal/exitwatch/levels.go:364-379 | A price seen before keeps its date; a new one has that of its first candidate, or the clock's when that has none |
| `LevelBook.StrongFromTags` | backend/internal/exitwatch/levels.go:437-463 | A merged level is strong exactly when one of its tags is, so comparing tags compares strength |
| `LevelBook.LevelBook.OnCandle` | backend/internal/exitwatch/levels.go:217-266 | One closed bar: day roll, late bars ignored; the day range covers all prices shown, and swings and opening range agree with the batch forms exactly as `steady` says |
| `LevelBook.LevelBook.OnTick` | backend/internal/exitwatch/levels.go:202-213 | The live day high and low are the extremes of everything the day has shown |
| `LevelBook.LevelBook.OnHtfCandle` | backend/internal/exitwatch/levels.go:289-305 | Unused timeframes, forming bars and repeats change nothing; otherwise the series keeps its last sessions |
| `LevelBook.KeptAgeIsStale` | backend/internal/exitwatch/levels.go:453-463 | An older level joining a cluster under the same label changes only the age, so the kept list dates the cluster too late |
| `LevelBook.LevelBook.Rebuild` | backend/internal/exitwatch/levels.go:355-433 | A rebuild leaves the merge of what the book holds, or the old list, which is the merge if and only if it does not agree with it in everything but some age; prices seen before keep their dates, a new one has that of its first candidate or the clock's; the version moves exactly when the list does |
| `LevelBook.LevelBook.Levels` | backend/internal/exitwatch/levels.go:177-186 | The cached list handed out is the merge of what the book holds now, up to ages |
| `BookContents.CandidatesAre` | backend/internal/exitwatch/levels.go:379-397 | A rebuild considers exactly the day's high and low, the opening range once it is done, the day's swings, the analyst levels, our levels with their touches, and the swings of the two higher timeframes, each under its own label |
| `BookContents.ListShows` | backend/internal/exitwatch/levels.go:355-433 | The merged list shows everything the book holds at a positive price, within the tolerance, tagged with its type and with no fewer touches, and nothing that is not held: every price, label, tag and touch count is that of something held |
| `BookContents.DaySwings` | backend/internal/exitwatch/levels.go:255-265 | The day's swings are the highs of its peaks and the lows of its troughs, each strictly beyond the bars around it and dated by the bar that settles it |
| `BookContents.SwingLabels` | backend/internal/exitwatch/levels.go:307-338 | The swings of the five-minute and hourly series likewise, under their own labels and dated by the close of the bar that settles them |
| `BookContents.CalendarIs` | backend/internal/exitwatch/levels.go:188-200 | The book's day and minute are those of IST |
| `PreReject.PickExact` | backend/internal/exitwatch/prereject.go:54-87 | On sorted levels the early-stopping scan returns exactly the nearest qualifying level that leaves the required room |
| `PreReject.RunWatches` | backend/internal/exitwatch/prereject.go:90-156 | The rule is touched exactly while a touch is being watched, one that came when none was and whose level is not broken since, and it watches that level |
| `PreReject.ExitExactly` | backend/internal/exitwatch/prereject.go:90-156 | Over any run the rule exits if and only if the trend allows it, price is not beyond the watched level, has come back from the best move since the touch by the rejection points, and with confirmation on a bar ending after the touch closed on the near side |
| `PreReject.Rule.Advance` | backend/internal/exitwatch/prereject.go:90-156 | The in-place step of the rule refines the value-level step |
| `Runner.Ratchet` | backend/internal/exitwatch/runner.go:150-236 | In one step the lock never falls and a raise lands strictly behind the move |
| `Runner.RunRatchet` | backend/internal/exitwatch/runner.go:122-236 | Over any run every unlatched running evaluation has move > lock >= lock share of the target |
| `Runner.LockNeverFalls` | backend/internal/exitwatch/runner.go:150-236 | The lock never falls between any two evaluations of a run |
| `RunnerHistory.StartsExactly` | backend/internal/exitwatch/runner.go:131-163 | The first evaluation at or past the target hands the position to the runner, locked at its share, if momentum is strong and no level ahead is too close, and exits it there otherwise; before it nothing happens |
| `RunnerHistory.MovesMean` | backend/internal/exitwatch/runner.go:168-190 | In a run the peak is the best move since it began and the pullback low the lowest since that best was new |
| `RunnerHistory.TargetMeans` | backend/internal/exitwatch/runner.go:192-263 | The target in force is the level ahead at the last evaluation that aimed for a closer level of a new book or broke the target by holding beyond it for the break time; it counts as touched exactly if some evaluation since came within its tolerance of it |
| `RunnerHistory.LockMeans` | backend/internal/exitwatch/runner.go:168-222 | The lock is the largest of the lock share and everything offered since: under settled pullbacks, behind levels of new books formed during the run, behind broken targets |
| `RunnerHistory.ExitsExactly` | backend/internal/exitwatch/runner.go:224-236 | A running evaluation exits LOCK if and only if the move is not above that lock; SR_REJECT if and only if it is, the target was touched since it was set and the move is the rejection points under the best of the run; RUN_TRAIL if and only if neither holds, the best is the rejection points past the target and the giveback share of that extension is given back |
| `RunnerHistory.ReportsExactly` | backend/internal/exitwatch/runner.go:168-263 | An evaluation reports a broken target, a closer target and a raised lock exactly when they happen, with the level and the lock they are about |
| `RunnerHistory.MicroExactly` | backend/internal/exitwatch/runner.go:168-186 | A run finds one micro level at each pullback settled above the lock, at its low, and no others |
| `Runner.RunnerObject.Evaluate` | backend/internal/exitwatch/runner.go:122-236 | The in-place evaluation refines the value-level step, events and exit reason included |
| `Runner.RunnerObject.OnNewLevels` | backend/internal/exitwatch/runner.go:238-263 | A closer level ahead becomes the target; the furthest level formed behind price raises the lock |
| `RunnerLadder.RunClimbs` | backend/internal/exitwatch/runner.go:192-222 | Over any run whose tolerance is never more than one paisa under an earlier one, every broken level lies strictly beyond every level broken before |
| `RunnerLadder.LadderSlips` | backend/internal/exitwatch/runner.go:192-222 | For every larger drop of the tolerance there is a run that breaks a level and later one no farther in favour |
| `Mirror.StepMirrors` | backend/internal/exitwatch/runner.go:122-263 | A PUT evaluation on mirrored prices and the mirrored, reversed list is the mirror image of the CALL evaluation |
| `Mirror.RunMirrors` | backend/internal/exitwatch/runner.go:122-263 | The same over whole runs, after every evaluation |
| `Mirror.PreStepMirrors` | backend/internal/exitwatch/prereject.go:54-157 | One evaluation of the pre-target rule mirrors |
| `Mirror.PreRunMirrors` | backend/internal/exitwatch/prereject.go:54-157 | The pre-target rule mirrors over whole runs |
| `Tracker.Decider.Step` | backend/internal/exitwatch/score.go:82-105 | The in-place decider: latch, profit protection, confirmation time, tighten |
| `Tracker.TrackerObject.Assess` | backend/internal/exitwatch/tracker.go:250-299 | One evaluation: pre-target rule, then runner, then decider, then the one relabelling |
| `Tracker.ExitIsPermanent` | backend/internal/exitwatch/tracker.go:250-299 | Over any run, once EXIT is decided every later evaluation decides EXIT, with the same reason or a score exit turned level rejection |
| `Tracker.ReasonChangesOnce` | backend/internal/exitwatch/tracker.go:250-299 | The reason changes at most once |
| `Tracker.ScoreExitConfirmed` | backend/internal/exitwatch/score.go:82-105 | A score exit comes only after some evaluation at least confirmN earlier and every one since saw a score over the threshold, with the least progress reached and the premium standing |
| `TrackerHistory.SeesLastTick` | backend/internal/exitwatch/tracker.go:173-190 | After any steps a tracker has the price of its last index tick and the move that was from the entry then in force |
| `TrackerHistory.RulesSee` | backend/internal/exitwatch/runner.go:80-96 | Both rules see the same position, levels and clock, a tolerance that is the whole part of its share of the ATR or its least value, and rejection points likewise by their own parameters |
| `TrackerHistory.RulesRun` | backend/internal/exitwatch/tracker.go:250-335 | While unlatched both rules are in the state their own runs over what they were shown end in, so what is proved of those runs holds in the tracker; the runner has decided exactly if the target was reached |
| `TrackerHistory.ReasonExactly` | backend/internal/exitwatch/tracker.go:250-299 | The first evaluation to latch EXIT does so for the first of these that holds by the history: a justified pre-target rejection, the runner's exit, profit to protect, a score over its threshold for the confirmation time; if none holds nothing is latched |
| `ExitEngine.OneRequestPerPosition` | backend/internal/exitwatch/engine.go:386-445 | Over any run at most one exit request per tracked position, none for a ghost, none for the real-order strategy |
| `ExitEngine.ExitsAreAsked` | backend/internal/exitwatch/engine.go:386-445 | With the auto list set once, a tracked position was asked to close exactly when it is on record as EXIT and its strategy is auto |
| `EngineHistory.SlotsLive` | backend/internal/exitwatch/engine.go:281-445 | Over any run the engine tracks, under each key, exactly the life of that key: listed, kept, followed as a ghost past its target, replaced, given up at its exit or when its time is up; its tracker has seen the ticks of its index, its listings and its evaluations since it was listed and nothing else |
| `EngineHistory.StepAsks` | backend/internal/exitwatch/engine.go:386-445 | A step adds a request for a key if and only if it is an evaluation that decides EXIT for a live, priced position of an auto strategy that has no EXIT on record |
| `EngineHistory.ExpiredIs` | backend/internal/exitwatch/engine.go:447-453 | A ghost's time is up at the longest following time or past the last minute of the IST day |
| `EngineHistory.AutoIs` | backend/internal/exitwatch/engine.go:159-169 | A strategy is auto exactly if the last list names it and it is neither blank nor the real-order one |
| `ExitEngine.Engine.SetAutoExit` | backend/internal/exitwatch/engine.go:159-169 | The auto list becomes the named strategies without blanks and without the real-order strategy |
| `ExitEngine.Engine.SetPositions` | backend/internal/exitwatch/engine.go:281-320 | Reconciliation with the open set: kept trackers, replaced ghosts, skipped positions, new ghosts, dropped slots |
| `ExitEngine.Engine.Evaluate` | backend/internal/exitwatch/engine.go:386-445 | Every slot evaluated once in whatever order the map yields, requests and ghost ends included |
| `ReplayBuffer.RingPushed` | backend/internal/gateway/replay_buffer.go:35-48 | Overwriting the slot at pos and stepping on appends to the plain list, dropping the oldest entry of a full ring |
| `ReplayBuffer.HoldsTheLast` | backend/internal/gateway/replay_buffer.go:35-48 | Pushing any entries one by one leaves the last cap of them |
| `ReplayBuffer.Ring.Push` | backend/internal/gateway/replay_buffer.go:35-48 | The ring refines the list of the last cap entries |
| `ReplayBuffer.Ring.Range` | backend/internal/gateway/replay_buffer.go:52-67 | The entries numbered lo..hi of that list, in order |
| `ReplayBuffer.Ring.Last` | backend/internal/gateway/replay_buffer.go:70-85 | The n most recent entries, oldest first |
| `ReplayBuffer.Ring.Index` | backend/internal/gateway/replay_buffer.go:112-117 | The logical index finds the i-th oldest entry |
| `ReplayBuffer.RangeFull` | backend/internal/gateway/replay_buffer.go:52-67 | On consecutive numbers a range has as many entries as asked for exactly when the list reaches over all of them |
| `Hub.RunKeeps` | backend/internal/gateway/broadcaster.go:40-87 | Over any run of sends, subscriptions, drops, sweeps and epoch bumps each buffer holds consecutive sent envelopes and each live one ends at its channel's current number |
| `Hub.CompleteIsExact` | backend/internal/gateway/hub.go:415-440 | Whatever happens before, between and after the reads of a request, an answer marked complete holds exactly the envelopes from..to, once each, in order |
| `Hub.CompleteWhenBuffered` | backend/internal/gateway/hub.go:415-440 | Undisturbed, it is complete exactly when the epoch fits and oldest <= from <= to <= current |
| `Hub.RangeIsUnique` | backend/internal/gateway/broadcaster.go:40-46 | Numbers are not reused within one life of a channel, so an exact range is the only one of its life |
| `Hub.ResumeExact` | backend/internal/gateway/hub.go:415-440 | For a client that asks for what follows its last envelope, under any interleaving, a complete answer holds everything sent on the channel since, up to the number asked for, if and only if the channel was not evicted since |
| `Hub.EvictionGoesUnnoticed` | backend/internal/gateway/hub.go:533-555 | Within one epoch a client that saw number 1 before an eviction is told that 2..2 is complete and lacks the new life's first envelope |
| `Hub.HubObject.Broadcast` | backend/internal/gateway/broadcaster.go:25-87 | One critical section numbers, stores and buffers the envelope |
| `Hub.HubObject.KeepReplayLocked` | backend/internal/gateway/broadcaster.go:178-201 | Ticks never keep a buffer, candles and indicators while wanted or within the grace, everything else always; an unwanted buffer is dropped |
| `Hub.HubObject.SweepIdleChannels` | backend/internal/gateway/hub.go:540-555 | Exactly the idle non-sticky channels lose number, latest value, buffer and interest |
| `HubHistory.SweepExact` | backend/internal/gateway/hub.go:533-555 | After any history a sweep leaves a numbered channel alone if its last send came less than ttl before or it is sticky, and forgets every other: number, latest value, buffer and interest |
| `HubHistory.KeptExact` | backend/internal/gateway/broadcaster.go:178-201 | After a send on a candle or indicator channel there is a buffer if and only if a client listens or a send of this life less than the grace period before was listened to |
| `HubHistory.NoTicks` | backend/internal/gateway/broadcaster.go:178-201 | A tick channel never has a buffer |
| `HubHistory.AlwaysFull` | backend/internal/gateway/broadcaster.go:40-87 | Any other channel always has all envelopes of its life to replay, up to the last 500 |
| `HubHistory.LatestIsLastData` | backend/internal/gateway/broadcaster.go:40-60 | A channel's latest value is what was sent last on it, under its current number |
| `HubHistory.ClientsAre` | backend/internal/gateway/hub.go:305-322 | A client listens to what it set last since it connected, and to nothing once it has gone |
| `Hub.HubObject.BuildMissed` | backend/internal/gateway/hub.go:415-440 | The backfill answer with both directions of its completeness claim |
| `ClientQueue.EveryRunOk` | backend/internal/gateway/client.go:93-153 | Under any interleaving full-state frames are written in publication order, a parked frame is newer than every queued or written one of its channel, and a waiting writer of an open client with something parked has a frame queued |
| `ClientQueue.WriterRunsEnd` | backend/internal/gateway/client.go:192-234 | Writer steps alone end within a bounded number of steps |
| `ClientQueue.WriterNeverStuck` | backend/internal/gateway/client.go:192-234 | Until the queue is drained and nothing is parked the writer always has a step |
| `ClientQueue.QuietIsCurrent` | backend/internal/gateway/client.go:112-138 | At a quiet writer nothing is parked and the last frame written per channel is the newest published |
| `ClientQueue.PlainExact` | backend/internal/gateway/client.go:93-153 | Unless a write fails, the other frames written or queued are exactly those published while the queue was open and had room |
| `ClientQueue.ClientObject.PublishLatest` | backend/internal/gateway/client.go:112-123 | Queue the frame and clear the slot, or park it, newest wins |
| `ClientQueue.ClientObject.FlushPending` | backend/internal/gateway/client.go:129-138 | The flush loop is a run of the protocol, in any map order, stopping at the first frame that does not fit |
| `ClientQueue.ClientObject.WriteRound` | backend/internal/gateway/client.go:202-228 | One round of the writer is a run of the protocol and writes everything that was queued |
| `SignalFanout.SignalsAreLossless` | backend/internal/gateway/broadcaster.go:40-113 | Over any interleaving each client's queue starts with a hello, its signals form one gapless run, and a registered client has every signal due |
| `SignalFanout.HelloTellsEpoch` | backend/internal/gateway/hub.go:305-313 | A client's queue starts with a hello that carries the epoch in force when it registered |
| `SignalFanout.RouteLoop.BroadcastSignal` | backend/internal/gateway/broadcaster.go:93-113 | Every client with room gets the signal as its newest; the others are removed |
| `Epoch.StartMsRoundTrip` | backend/internal/gateway/hub.go:138-164 | The printed start time is the one parsed back; a negative one reads as 0 |
| `Epoch.BumpRaises` | backend/internal/gateway/hub.go:148-154 | A bump raises the prefix whatever the clock says, exactly while the old prefix is not the last 64-bit number |
| `Epoch.EpochsIncrease` | backend/internal/gateway/hub.go:187-202 | Over any run of bumps the prefixes strictly increase, even when the clock goes back |
| `Archiver.NoRowLost` | backend/internal/archiver/service.go:252-376 | Over any run of store effects with failures and crashes anywhere, tables read one by one and late rows marked after they are committed, every written row is local or in its day's remote file, provided the guards below hold at each step |
| `Archiver.RearchiveCovers` | backend/internal/archiver/service.go:396-435 | A fully successful visit of a marked day leaves every row of the day remote exactly when no stale temporary file was there |
| `Archiver.LateWriteExact` | backend/internal/backfill/backfill.go:100-107 | Committing a late row keeps the invariant if and only if the row is not new, or the run has not read its table of its day yet and the day is unrecorded, marked or about to be |
| `Archiver.PassedDayExact` | backend/internal/archiver/service.go:396-400 | Passing over a recorded day, unmarked or its mark unread, keeps the invariant whatever rows it has if and only if no mark is there and no writer owes one |
| `Archiver.DroppedMarkExact` | backend/internal/backfill/backfill.go:100-107 | A writer ending without its mark keeps the invariant, whatever rows there are, if and only if it owed none, the day is unrecorded, or another mark is there |
| `Archiver.CatchUpExact` | backend/internal/archiver/service.go:272-303 | Stopping at the catch-up bound and pruning what is due loses no row, whatever rows there are, if and only if every day from the bound on that is due is recorded, unmarked and owed no mark |
| `Archiver.CatchUpBoundLoses` | backend/internal/archiver/service.go:272-280 | A run that starts 400 days or more back prunes a row it never visited |
| `Archiver.UnreadMarkLoses` | backend/internal/archiver/export.go:128-134 | A mark that cannot be read counts as none and the late row is pruned |
| `Archiver.LateRowInRunIsLost` | backend/internal/archiver/export.go:99-108 | A row written and marked after its table was read in the same run loses its mark and is pruned |
| `Archiver.MarkTooLateLoses` | backend/internal/backfill/backfill.go:100-107 | Rows committed before a run passes their day and marked after it, or never, are pruned |
| `Archiver.StaleCacheLoses` | backend/internal/archiver/fetch.go:62-94 | A crash between merge and upload leaves a file the next run takes for the remote one |
| `ArchiverService.ArchiverObject.ArchiveDaySource` | backend/internal/archiver/service.go:252-309 | The day loop and the pruning are a run of the protocol. What fails is decided by the world: when no store effect fails, every day from the oldest up to the bound is recorded with its rows remote and everything due is pruned; the limit is the start of a day only when an effect of that day failed, with all days before it done |
| `ArchiverService.ArchiverObject.ArchiveDay` | backend/internal/archiver/service.go:314-335 | Export, upload, record, clear, or the re-archive of a recorded day, as a run of the protocol; it succeeds whenever the day's store effects do, the day is then done, and no other day changes |
| `ArchiverService.ArchiverObject.ExportDay` | backend/internal/archiver/export.go:76-110 | A fresh file filled table by table, any statement failing, as a run of the protocol; it succeeds exactly when every table can be read and then holds the day's rows |
| `ArchiverService.ArchiverObject.MergeIntoFile` | backend/internal/archiver/export.go:179-224 | The fetched file gains each table's rows in turn, a failure leaving it partly merged, as a run of the protocol; it succeeds exactly when every table can be read |
| `ArchiverService.ArchiverObject.MergeTable` | backend/internal/archiver/export.go:204-222 | One statement adds one table's local rows of the day, or fails and adds none |
| `ArchiverService.ArchiverObject.RearchiveDirty` | backend/internal/archiver/service.go:396-435 | Fetch, merge, upload if it grew, clear, as a run of the protocol |
| `ArchiverService.ArchiverObject.UploadAndRecord` | backend/internal/archiver/service.go:340-376 | Up to three attempts, then the manifest entry; it succeeds exactly when an attempt stores the file and confirms its size and the entry is written, and the file is then stored and recorded |
| `ArchiverService.ArchiverObject.PruneBefore` | backend/internal/archiver/prune.go:17-37 | The chunked delete removes exactly the rows before the cutoff and counts them, unless a delete fails |
| `ArchiverService.PrunableIs` | backend/internal/archiver/service.go:282-303 | A row is due exactly if its table has a window, its IST day lies at least that many days back from the last day and before the first day that failed |
| `TfBars.BucketHolds` | backend/internal/model/tfbucket.go:14-23 | A bar start is on the grid and holds its time exactly when the time rounds down: always for session-aligned bars, for clock-aligned ones unless the time is negative and off the grid |
| `TfBars.BucketMonotone` | backend/internal/model/tfbucket.go:14-23 | Later times have no earlier bar starts |
| `TfBars.AggregateIs` | backend/internal/backfill/backfill.go:309-327 | For bars in time order the aggregation strictly increases and each bar sums up exactly its bucket's inputs |
| `TfBars.VolumeConserved` | backend/internal/backfill/backfill.go:309-327 | Volume is conserved |
| `TfBars.BucketComposes` | backend/internal/model/tfbucket.go:14-23 | Rounding to a refining grid first leaves the coarse bar start as it is if and only if the fine grid does not round the time up onto a start of a session-aligned coarse grid, which takes a time before 1970 |
| `TfBars.TwoStepsMisplace` | backend/internal/model/tfbucket.go:14-23 | One bar a quarter of an hour before 1970 lands an hour bar late through five-minute bars |
| `TfBars.AggregationComposes` | backend/internal/backfill/backfill.go:309-327 | Aggregating to tf1 and then to tf2 is aggregating straight to tf2 whenever tf1's grid refines tf2's and every bar's time meets that condition |
| `TfBars.AggregateBars` | backend/internal/backfill/backfill.go:309-327 | The sorting and joining loop computes the aggregation, 60 one-second candles per input |
| `TfBars.StreamIsBatch` | backend/internal/exitwatch/replay.go:45-66 | The stream emits exactly the batch's OHLC bars except the last, which is the forming one |
| `TfBars.Replay.AddMinute` | backend/internal/exitwatch/replay.go:45-66 | One minute bar goes into both timeframes' forming bars as the stream step says |
| `TradePairing.EveryBuyOnce` | backend/internal/gateway/daily_analytics.go:358-447 | For any rows a BUY is used up by at most one later EXIT of its key, and no EXIT uses up two |
| `TradePairing.PairingIsFifo` | backend/internal/gateway/daily_analytics.go:358-447 | On sorted, timestamped rows only the current day waits, the cross-day guard never fires, and pairing is first in, first out within key and day, leaving no suitable BUY behind |
| `TradePairing.FifoIsUnique` | backend/internal/gateway/daily_analytics.go:358-447 | There is only one such pairing |
| `TradePairing.Conservation` | backend/internal/gateway/daily_analytics.go:358-447 | BUYs = pairs + used up by priceless exits + flushed + dropped by the guard + waiting, for any rows |
| `TradePairing.ConservationSorted` | backend/internal/gateway/daily_analytics.go:358-447 | On sorted, timestamped rows the guard's share is zero |
| `TradePairing.PairRows` | backend/internal/gateway/daily_analytics.go:358-447 | The loop over pending queues computes exactly the pairs of the specification |
| `TradePairing.PairCompletedTrades` | backend/internal/gateway/daily_analytics.go:358-472 | The completed trades are those pairs, newest exit first |
| `TradePairing.PairingCalendar` | backend/internal/gateway/daily_analytics.go:358-447 | Days are IST days |
| `DailyViews.ViewsAgree` | backend/internal/gateway/daily_analytics.go:474-606 | Both daily views show the same days in the same order with the same trade counts and P&L |
| `DailyViews.BuildDailyPnL` | backend/internal/gateway/daily_analytics.go:474-539 | The newest days asked for, each row describing exactly its day's trades: count, sum, winners, losers, extremes |
| `DailyViews.BuildDailyOrders` | backend/internal/gateway/daily_analytics.go:541-606 | The newest days asked for, each group holding exactly its day's trades, newest exit first |
| `Arbiter.DecidesOnce` | backend/internal/exitpolicy/arbiter.go:37-131 | As long as no two evaluations in flight have taken the same position, whatever happens between their phases, a position decides at most once, on a rule that, if no other of the plan shares its name, fired on each of its last evaluations, and no evaluation sees a best premium under the entry |
| `ArbiterHistory.LivePrices` | backend/internal/exitpolicy/arbiter.go:63-80 | Over any run a live position has the last positive price ticked on each of its tokens since its opening, or 0, and as best premium the largest of its entry premium and every positive price of its option token since then |
| `ArbiterHistory.JudgedOn` | backend/internal/exitpolicy/arbiter.go:102-112 | The snapshot a finishing evaluation judges a live position on shows exactly those prices |
| `ArbiterHistory.BestIsDated` | backend/internal/exitpolicy/arbiter.go:108-111 | In every run each snapshot dates the best premium by the first judgement that saw it, or by the entry when it never rose above the entry premium |
| `ArbiterHistory.DecidesExactly` | backend/internal/exitpolicy/arbiter.go:108-128 | A judgement decides exactly if some rule of the plan fired on as many of the latest judgements in a row as it must hold, on the first such rule |
| `ArbiterHistory.FinishDecides` | backend/internal/exitpolicy/arbiter.go:102-131 | Finishing an evaluation adds one decision for a live position exactly when its judgement decides |
| `Arbiter.ClosedNeverDecides` | backend/internal/exitpolicy/arbiter.go:86-131 | A position closed or replaced while an evaluation is in flight never decides again |
| `Arbiter.SharedDecides` | backend/internal/exitpolicy/arbiter.go:86-131 | In any state, a live position taken by two evaluations is judged by both, latched or not, and ends with one decision for each judgement that decides |
| `Arbiter.DecidesAgain` | backend/internal/exitpolicy/arbiter.go:114-128 | A latched position judged again decides again as long as the rule that decided still fires |
| `Arbiter.SameMinuteDecidesTwice` | backend/internal/exitpolicy/arbiter.go:86-131 | Two evaluations of one minute without a tick between them decide twice every position both took that the first decides |
| `Arbiter.TwoCanShare` | backend/internal/exitpolicy/arbiter.go:86-131 | Such a state is reachable |
| `Arbiter.SharedNameConfirmsEarly` | backend/internal/exitpolicy/arbiter.go:114-128 | Two rules of one name share a streak, and a rule that must hold two minutes decides in its first |
| `Arbiter.NeverPanics` | backend/internal/exitpolicy/theta.go:37-76 | No rule of a tracked position divides by zero |
| `Arbiter.ThetaPanics` | backend/internal/exitpolicy/theta.go:37-76 | With a zero expected gain the rule divides by zero exactly when the recorded best premium lies under the entry |
| `Arbiter.EntryGreeks` | backend/internal/exitpolicy/types.go:50-59 | There are greeks unless the delta is zero or the target is not positive; the delta, the decay and the gain of a full target move are each rounded to the nearest unit |
| `ArbiterHistory.ThetaWithoutGreeks` | backend/internal/exitpolicy/theta.go:37-76 | Without greeks the rule fires exactly on an unarmed, priced and timed position whose best gain stayed under its share of the entry premium for the time allowed |
| `ArbiterHistory.ThetaWithGreeks` | backend/internal/exitpolicy/theta.go:37-95 | With greeks it fires exactly on a flat position whose premium decayed by its share of the expected gain or whose time is up, and on one that had its gain and gave it back for long enough; a zero gain panics there |
| `Arbiter.ExpectedGain` | backend/internal/exitpolicy/types.go:50-59 | The expected gain is never negative and is zero exactly when it rounds there |
| `Arbiter.ArbiterObject.BeginMinute` | backend/internal/exitpolicy/arbiter.go:86-94 | The first locked phase takes every live unlatched position once |
| `Arbiter.ArbiterObject.FinishMinute` | backend/internal/exitpolicy/arbiter.go:102-131 | The second locked phase judges what is still there and returns exactly the new decisions |
| `Arbiter.Judge` | backend/internal/exitpolicy/arbiter.go:108-128 | The rule loop with its streaks, stopping at the first rule that has held long enough |

## Left out

- Hub.HubObject.Broadcast: refers to a replay ring by its place in a list of plain sequences; that a ring is such a sequence is `ReplayBuffer.Ring`, and the two meet in the function `ReplayBuffer.Pushed`.
- Arbiter.DecidesOnce: two rules of one name share a streak in the source, so for such a plan only the single decision is stated; `SharedNameConfirmsEarly` shows what goes wrong.
- Hub.CompleteIsExact: says the range is exact within one life of a channel; which life that is to a client is `Hub.ResumeExact`.
- ClientQueue.EveryRunOk: publication order is the order of the `SendLatest` calls; two concurrent broadcasts of one channel may call it in the other order than they were numbered.
- TradePairing.PairCompletedTrades: the order of trades with equal exit and entry times (the source goes on to compare strings) is not stated.
- TradePairing.PairingIsFifo: asks for sorted rows whose times could be read, the order in which the source loads them; rows without a time sort first and are covered by `EveryBuyOnce` and `Conservation` only.
- TfBars.AggregationComposes: is about OHLCV and bar start; the candle count is stated by `AggregateBars`.
- Tracker.TrackerObject.Assess: the score, the momentum features and the ATR are inputs; the early-fail advice, which leaves the decision alone, is not modelled.
- RunnerHistory.ExitsExactly: measures moves from the entry; an entry that is changed in the runner leaves the tracker's move as it was until the next tick (`TrackerHistory.SeesLastTick` says from which entry), and in between the two differ.
- ArchiverService.ArchiverObject.ArchiveDay: of a marked day whose merged file is left over from a crash only the record and the mark are stated; what such a file may lose is `Archiver.StaleCacheLoses`.
- ExitEngine.Engine.Evaluate: keys are triples of strategy, side and token instead of joined strings; signals, recorded views and the publishing clock are not modelled.
- ArchiverService.ArchiverObject.ArchiveDaySource: models one source; `RunOnce`'s clock, the other sources, gzip, VACUUM and the restore of days are not part of it.
- Archiver.LateWriteExact: is about the invariant that implies no loss; a row that breaks it is lost once the run ends and its window passes, as `LateRowInRunIsLost` shows for one run.
- Archiver.NoRowLost: a row is its table, key and day timestamp; an upload that reports the local size is taken to have stored that file.
- ADX, ATR, VWAP and Bollinger bands: the first saves only part of its state, the others add nothing to the forms proved.
- Version 1 snapshots, legacy checkpoints and malformed stream IDs: read for compatibility, not part of the protocol.
- Duplicate indicators (same type and period) in one timeframe: assumed absent; the migration would share one state between them.
- The logistic score and its feature weights: tuned float arithmetic.
- Reason texts, labels, log lines and JSON envelopes: tags stand for them; tags inside a level are a sequence instead of a joined string, and channel names are constructors instead of parsed strings.
- Redis, SQLite, MEGA, HTTP, WebSocket and goroutine scheduling: abstract stores, sequences and explicit steps.
- The `pruneOnly` source and the merge of the P&L ledger into the pairs: by design without a guarantee to prove, or a filter and a concatenation.
- Option pricing, strike picking, instrument master, backtest loading, analyst detectors, watchdogs, configuration parsing and the frontend.
