# A verified model of btcpool-rs

This project models the hard core of the btcpool-rs solo mining pool in Dafny and proves what that
core is for: no recorded work is lost or counted twice, a finished round never comes back, a share
commits to the block it was mined for, and the small controllers around a session keep their
promises on every trace. `dafny verify dfyconfig.toml` checks all of it.

How the parts fit together:

- `Bytes`, `Division`, `Options`, `Ledgers`: byte strings as numbers, division by variables, optional
  values, sums over tables.
- `Target`, `Merkle`, `Coinbase`: consensus arithmetic, the Merkle path without its first leaf, and
  block construction. SHA-256d is a function parameter.
- `WorkHistory`, `Store`, `Writer`, `WriterThread`, `ShareLedger`: the share ledger from the staging
  map through the queue and the retry backlog into the minute and hourly tables, and back out as
  one series. A database transaction commits or changes nothing, and whether it does is an input.
- `LedgerLog`, `LedgerMinutes`, `LedgerCharts`: the tables of every ledger run as the result of one event
  log, so that the query theorems speak of the running system; the minute every share is filed under;
  and the shares a chart shows.
- `Drain`, `LedgerStop`, `Shutdown`: the writer loop emptying its queue on a healthy disk, and what a
  shutdown therefore keeps of the ledger and of the round.
- `Round`, `RoundRuns`: the counters since the last found block, as interleaved programs of atomic steps
  over memory and the writer, and what they come to in shares and credits of the run.
- `Blocks`, `Submission`, `Confirm`: a found block from submission to its final verdict.
- `Credit`, `Decay`, `Vardiff`: what a share is worth, the decaying averages, the difficulty
  controller. `f64` is `real`, and `1 - exp(-x)` is a function parameter of which only stated bounds
  are used.
- `Jobs`, `Session`: the job history, the duplicate set and the session protocol.

Stateful code is a class whose methods are proved equal to a specification function; the theorems
are about those functions and about every run of them. Concurrent code is a step relation, with
atomics sequentially consistent.

## Where the code falls short of its own description

Each of these has a concrete input or run, and the exact condition under which the property holds
for all inputs, where it ever does.

- The retry backlog is strictly first in, first out, so a resolution parked ahead of its own block's
  row blocks every parked write, that row included, for as long as nothing is dropped
  (`Blocks.JamIsReachable`, `Writer.JamHoldsEverything`). A pass drains the backlog if and only if no
  resolution precedes its block (`Writer.BacklogDrainsIff`), and a whole shutdown if and only if every
  waiting resolution has its row on disk, in the queue or parked ahead of it
  (`Drain.FlushedCleanIff`, `LedgerStop.ShutdownKeepsAllIff`).
- A finished round can come back after a shutdown on a healthy disk: when its reset, and the row of the
  block that ended it, are parked behind such a resolution (`Shutdown.FinishedRoundComesBack`). Disk and
  memory agree after the shutdown if and only if the current reset has landed, is queued, or is parked
  with no stuck resolution ahead of it (`Shutdown.ShutdownExactIff`).
- A reset that was parked and overtaken by a newer one wipes the newer round on disk when it lands
  (`Shutdown.LateResetWipes`). The next snapshot repairs it, the shutdown's final one included: an older
  reset is no part of the condition above.
- Two overlapping round resets can put a share counted before the later reset back into its round
  (`Round.OverlappingResetsOvercount`). The round stays within a reset's own reading if and only if
  no lower reading is in play when it bumps the epoch (`Round.OwnReadingBoundsIff`), as when resets
  are taken one at a time (`Round.SerialRunsCountFromOwnReading`).
- A block reported twice is enrolled once and counted twice (`Blocks.TwiceReportedDisagrees`): the
  counters equal the recount exactly when no block is reported twice (`Blocks.CountersAgreeIff`). The
  retry ladder never reports twice (`Submission.Submit`), but the duplicate check can let one header
  through twice: with version rolling off the header ignores the submitted version bits and the key
  keeps them (`Session.OneHeaderBookedTwice`), and the node's answer to the second submission,
  `duplicate`, counts as a win. Keys stand for headers if and only if rolling is on and the template's
  version has no bit inside the mask (`Session.KeyTellsHeadersIff`).
- The finality depth is documented as symmetric. An Orphaned verdict needs a reorganisation one
  block deeper than a Confirmed one (`Confirm.OrphanedStands`, `Confirm.ConfirmedCanFall`). The two
  reads of a probe are not atomic, so a block that returns between them can be declared orphaned
  (`Confirm.SplitProbeMisjudges`), exactly when the block's place changed in between
  (`Confirm.SplitProbeAgreesIff`).
- A minute parked by a failing disk can land after its hour was rolled up (`LedgerLog.LateMinuteHappens`)
  and makes sub-hour points misread (`WorkHistory.LateMinuteMisreads`): all points are exact if and only if no such minute lies past
  the first bucket of its hour (`WorkHistory.SubHourExactIff`).
- The warm-up correction is documented as exact. It reads low for every spacing of the ticks and every
  age up to the cap of its exponent (`Decay.CorrectedReadingIsLow`).
- The credit tolerance is justified by readings that fall a hair short of the target. Readings never
  do (`Credit.HonestHashesEarnInFull`).
- The coinbase layout tripwire fires on a correct serialization if and only if the height is 0 and the
  bytes before the script already contain it (`Coinbase.TripwireFiresIff`): with an empty tag, for
  every extranonce width up to 31 (`Coinbase.GenesisBuildsIff`). A node's template never has height 0.
- The compact-target guard refuses a target that fits in 256 bits if and only if its exponent is 33 with
  a mantissa of at most two bytes, or 34 with a mantissa of one (`Target.FittingTargetRefusedIff`).
- A session that starts while templates change, or that lags, can hold live jobs on two tips: an open
  session is safe if and only if its next broadcast continues the template it holds
  (`Session.OneTipIffInStep`, `Session.LagIsSafeIff`, `Session.LagMixesTips`).

## Model

| member | source | states |
|---|---|---|
| Target.DivBeU256ByU64 | src/bitcoin/template.rs:821-832 | the byte-wise long division, cast included, is the integer quotient of the 256-bit value |
| Target.DigitsSpellQuotient | src/bitcoin/template.rs:821-832 | value = quotient * divisor + remainder for any byte string, with every digit a byte |
| Target.DifficultyToTarget | src/bitcoin/template.rs:726-738 | the computed target is the share target of the difficulty, zero counting as one |
| Target.ShareTargetValue | src/bitcoin/template.rs:726-738 | as a number, the target is floor(0xFFFF * 2^208 / d) |
| Target.MeetsTargetIsNumeric | src/mining/validator.rs:475-479 | the reversed lexicographic comparison is the comparison of the two 256-bit numbers |
| Target.ShareTestIsExact | src/mining/validator.rs:475-479 | for every d >= 1 a hash passes exactly when H * d <= 0xFFFF * 2^208 |
| Target.HashToDifficulty | src/bitcoin/template.rs:744-786 | the fixed-point reading of a hash, shifts in 64 bits, equals the mathematical reading |
| Target.FixedPointIsReading | src/bitcoin/template.rs:760-786 | every branch on the leading-zero count computes the same capped quotient |
| Target.LeadingWord | src/bitcoin/template.rs:744-770 | the eight leading bytes collected are the hash shifted to its first non-zero byte |
| Target.NothingShiftedOut | src/bitcoin/template.rs:760-786 | the 64-bit shifts lose no bit |
| Target.ReadingNeverBelow | src/bitcoin/template.rs:744-786 | the reading is at least the true difficulty, capped at 2^64-1 |
| Target.ReadingAtMostOneAbove | src/bitcoin/template.rs:744-786 | below 2^56 the reading is at most one above the true difficulty |
| Target.ReadingAntitone | src/bitcoin/template.rs:744-786 | a smaller hash never reads lower |
| Target.AcceptedShareReadsItsDifficulty | src/mining/validator.rs:274-287 | a share accepted at difficulty d reads at least d |
| Target.CompactValue | src/bitcoin/template.rs:788-819 | a decoded compact target is mantissa * 256^(e-3), floored for e <= 3, and refused exactly when a non-zero mantissa has e > 32 |
| Target.TooWideIsRefused | src/bitcoin/template.rs:788-819 | every compact value of 2^256 or more is refused |
| Target.FittingTargetRefusedIff | src/bitcoin/template.rs:803-808 | a value below 2^256 is refused exactly at exponent 33 with a mantissa under 2^16 or exponent 34 with one under 2^8, never zero |
| Merkle.BranchReachesRoot | src/bitcoin/template.rs:628-673 | for every coinbase hash, climbing the precomputed path gives the root of the duplicate-last tree over coinbase and transactions |
| Merkle.BranchLength | src/bitcoin/template.rs:628-673 | the path length is the ceiling of log2 of the number of leaves |
| Merkle.TwoLeaves | src/bitcoin/template.rs:172-182 | a pair is hashed left before right |
| Merkle.ThreeLeaves | src/bitcoin/template.rs:628-673 | an odd leaf is hashed with itself |
| Merkle.ComputeMerkleBranchRaw | src/bitcoin/template.rs:628-673 | the level-by-level loop with a hole for the coinbase computes that path |
| Coinbase.EncodeBip34Height | src/bitcoin/template.rs:598-618 | the byte loop produces the minimal push of the height |
| Coinbase.PayloadIsUnique | src/bitcoin/template.rs:598-618 | the payload is the only minimal non-negative script number for its height |
| Coinbase.HeightRoundTrip | src/bitcoin/template.rs:598-618 | for every 64-bit height the push decodes back to it under any trailing bytes |
| Coinbase.BootGuarantee | src/config.rs:343-365 | a height has the property that every bootable configuration gives a legal script length if and only if it is below 2^31 |
| Coinbase.TripwireNeverFires | src/bitcoin/template.rs:532-562 | for heights from 1 on, the first occurrence of the script in the serialization is the expected offset, whatever the tag |
| Coinbase.TripwireFiresIff | src/bitcoin/template.rs:532-548 | for every height, text tag and width the check refuses a correct serialization if and only if the height is 0 and the preamble already contains the script |
| Coinbase.GenesisBuildsIff | src/bitcoin/template.rs:532-548 | at height 0 with an empty tag the build is refused exactly for total extranonce widths up to 31 |
| Coinbase.ValidConfigBuilds | src/bitcoin/template.rs:453-562 | at heights 1 to 2^31-1 a bootable configuration builds exactly when its weight is at most 4000, and otherwise fails for that |
| Coinbase.Scratch.AssembleCoinbaseInto | src/bitcoin/template.rs:149-160 | the reused buffer holds exactly this share's splice, nothing of an earlier one |
| Coinbase.ShareCommitsToBlock | src/bitcoin/template.rs:398-438 | for every split of the reserved extranonce width the validator's root is the root of the full tree over the miner's coinbase, which still opens with the block height |
| WorkHistory.FoldedIsGroupBy | src/stats.rs:1469-1501 | folding due minutes one by one equals the grouped sum added to each hourly row |
| WorkHistory.FoldedAnyOrder | src/stats.rs:1469-1501 | the order in which rows are folded does not matter |
| WorkHistory.RollUpKeepsTotals | src/stats.rs:1469-1501 | every hour-level total and the presence of rows survive a rollup |
| WorkHistory.RollUpIsInvisible | src/stats.rs:962-1045 | for every scope, start and whole-hour bucket the query returns the same points before and after a rollup |
| WorkHistory.AnswersAsIfNeverRolledUp | src/stats.rs:962-1045 | after any history of upserts and rollups, whole-hour queries answer as if nothing had been rolled up |
| WorkHistory.PointIff | src/stats.rs:962-1045 | for every bucket width and any tables: a point is returned exactly at starts of buckets that hold scoped rows of the range, with their sums, the wider grid in use as its span, once that span has elapsed |
| WorkHistory.WholeHourPointsAreExact | src/stats.rs:962-1045 | for whole-hour buckets after any history: exactly the grid buckets that end after the range's start and by now, and hold something filed, each with exactly what was filed in it |
| WorkHistory.RolledUpIff | src/stats.rs:1469-1501 | a minute leaves the fine table exactly when its whole hour is eight days past, and its hour then has a row |
| WorkHistory.UnrolledHoursAreExact | src/stats.rs:1469-1501 | minutes of an hour not rolled up stand as filed |
| WorkHistory.SubHourPointsAreExact | src/stats.rs:962-1045 | for buckets dividing an hour, with no minute past the first bucket of a rolled-up hour, each point carries exactly what was filed in its span |
| WorkHistory.LateMinuteMisreads | src/stats.rs:1001-1022 | any minute past the first bucket of a rolled-up hour makes that hour's point differ from what was filed |
| WorkHistory.SubHourExactIff | src/stats.rs:962-1045 | over every range and clock all points are exact if and only if no scoped minute lies past the first bucket of an hour the scope has rolled up |
| Store.ApplyConserves | src/stats.rs:1212-1333 | for each worker, tables plus entries the worker cap turned away change by what the write carried, or by nothing when it failed; every cached id names a committed row |
| Writer.RetryPassIsRun | src/stats.rs:1191-1210 | a retry pass is a run of atomic retries |
| Writer.IterationIsRun | src/stats.rs:1091-1121 | one loop iteration is a run of atomic steps, so step invariants hold of the thread |
| Writer.StepOk | src/stats.rs:1158-1210 | every write ever queued is in exactly one of queue, backlog, applied, discarded, dropped or dead; only durable ones are parked |
| Writer.StillThere | src/stats.rs:1158-1210 | a durable write leaves queue and backlog only by being applied or by an overflow drop |
| Writer.StepSorts | src/stats.rs:1158-1210 | a failed ledger minute, block row, resolution or reset is parked, a failed snapshot or watermark dropped, and a failed retry stays where it was |
| Writer.LostGrows | src/stats.rs:1172-1180 | only a full backlog of ten thousand drops a write, its oldest |
| Writer.BacklogDrainsIff | src/stats.rs:1191-1210 | a pass on a healthy disk empties the backlog exactly when no resolution precedes its block |
| Writer.JamHoldsEverything | src/stats.rs:1158-1210 | behind such a resolution nothing parked lands, over any number of steps, whatever the disk does and whatever writes arrive but the block's own row, until the backlog overflows; the first write an overflow drops is that resolution |
| Drain.FlushedIsRun | src/stats.rs:1091-1121 | draining the queue with a retry pass before each write, and one more for the flush, is a run of the writer's atomic steps |
| Drain.RoomForAll | src/stats.rs:1172-1180 | nothing is dropped on the way while queue and backlog together fit the backlog |
| Drain.TakeKeepsAll | src/stats.rs:1158-1189 | whether every waiting resolution will find its row is decided before a write is taken, and taking it does not change the answer |
| Drain.FlushedCleanIff | src/stats.rs:1091-1121 | on a healthy disk the drained writer has nothing parked if and only if every waiting resolution has its row on disk or anywhere in the queue, or its insert parked ahead of it |
| Drain.PassKeepsReset | src/stats.rs:1191-1210 | a retry pass does not change whether the reset of the newest epoch will land |
| WriterThread.StatsWriter.ResolveWorker | src/stats.rs:1354-1407 | a name resolves to its row, registering it below the worker cap, whatever else the transaction holds |
| WriterThread.StatsWriter.WriteLedgerMinute | src/stats.rs:1421-1461 | the entry loop in its transaction files the minute, or leaves the tables untouched |
| WriterThread.StatsWriter.RollUpLedger | src/stats.rs:1469-1501 | the insert-and-delete loop is the rollup of due rows |
| WriterThread.StatsWriter.ApplyWrite | src/stats.rs:1212-1333 | every kind of write has the specified effect on database and writer state |
| WriterThread.StatsWriter.HandleWrite | src/stats.rs:1158-1189 | apply, or park the durable and drop the rest, evicting the oldest when full |
| WriterThread.StatsWriter.RetryBacklog | src/stats.rs:1191-1210 | the pop-and-push-back loop is a retry pass |
| ShareLedger.LedgerAccum.TakeOpen | src/stats.rs:267-282 | the drain lists each staged worker once with its amounts and empties the map |
| ShareLedger.LedgerAccum.RollTo | src/stats.rs:251-264 | a reading at or past the open minute leaves the multiple of 60 it lies in open, an earlier one changes nothing, and the old minute is handed out exactly when a full minute has passed |
| ShareLedger.LedgerAccum.Record | src/stats.rs:2125-2155 | roll, then add with saturation, under one lock: the share is staged in the minute its reading lies in, or in the open one when the clock went back |
| ShareLedger.DrainTotal | src/stats.rs:267-282 | what a drain lists for a worker is what was staged under all its names |
| ShareLedger.SaturationSplits | src/stats.rs:2140-2155 | staging loses exactly what does not fit in 64 bits |
| ShareLedger.StepBooks | src/stats.rs:1158-1210 | a writer step moves a worker's amounts between queue, backlog, tables and explicit drops without changing their sum |
| ShareLedger.ActionBalanced | src/stats.rs:2125-2182 | every action keeps recorded = staged + in flight + queued + parked + tables + explicit losses, per worker and field |
| ShareLedger.BooksAlwaysBalance | src/stats.rs:1091-1210 | that balance, exactly-once and cache soundness hold after every run of shares, clock readings, flushes, failures, retries, rollups and restarts |
| ShareLedger.BootOk | src/stats.rs:2125-2182 | an empty database and a fresh process satisfy what the run theorem assumes |
| ShareLedger.CleanRestartLosesNothing | src/stats.rs:2770-2780 | a restart after everything drained adds no loss, and all recorded amounts not already lost are in the tables |
| LedgerStop.FlightCarriesLedgers | src/stats.rs:2125-2182 | in every run only ledger minutes are on their way to the channel |
| LedgerStop.HaltedIsReached | src/stats.rs:2770-2780 | flushing the open minute, handing everything over and draining is a run of the ledger |
| LedgerStop.ShutdownKeepsAllIff | src/stats.rs:2770-2780 | from any ledger state, a shutdown on a healthy disk leaves nothing staged, in flight, queued or parked if and only if every waiting resolution will find its row; then the next boot finds every recorded amount on disk, up to earlier losses |
| LedgerLog.ApplyIsLogged | src/stats.rs:1312-1325 | what one write does to the tables is the upserts of its entries and then the rollup |
| LedgerLog.RunIsLogged | src/stats.rs:1091-1210 | in every run the tables are the result of the log of those events, failures, retries and restarts included |
| LedgerLog.FiledIsApplied | src/stats.rs:1421-1461 | that log filed, for every registered worker and minute, exactly the worker's entries of the applied writes of that minute |
| LedgerLog.WorkersCapped | src/stats.rs:1354-1407 | no run registers more than ten thousand workers |
| LedgerMinutes.StepAt | src/stats.rs:1158-1210 | the writer moves writes about without changing what is held for any worker and minute |
| LedgerMinutes.ActionTimely | src/stats.rs:2125-2182 | with a clock that does not go back, every action keeps recorded in a minute = staged, in flight, queued, parked and applied for it, plus the losses |
| LedgerMinutes.SharesLandInTheirMinute | src/stats.rs:251-264 | over every such run, for every worker and minute, the shares recorded with a reading in that minute are exactly what was filed, waits or was lost under it |
| LedgerCharts.ChartShowsTheShares | src/stats.rs:962-1045 | from the share to the chart, over every such run: a whole-hour point of a worker never shows more than the shares recorded in its bucket, and exactly those once nothing waits and nothing was lost |
| LedgerCharts.ChartMissesNothing | src/stats.rs:962-1045 | and then every ended bucket of the range with a share recorded in it has its point |
| LedgerLog.RunCarries | src/stats.rs:2125-2155 | if every share recorded counts for something, so does every row filed |
| LedgerLog.QueriesSpeakOfTheLedger | src/stats.rs:962-1045 | for every run from the first boot: the books balance with what the log filed, whole-hour queries answer as if nothing had been rolled up, and sub-hour points are exact if and only if no minute lies past the first bucket of a rolled-up hour |
| LedgerLog.LateMinuteHappens | src/stats.rs:1312-1325 | a run from an empty pool in which a parked minute lands after its hour's rollup, all writes applied, and a sub-hour point misreads |
| Round.CoreStaysOk | src/stats.rs:2272-2310 | through any interleaving, no mark of a past epoch exceeds the offset or any reading that may still become the offset |
| Round.ApplyBounded | src/stats.rs:1302-1333 | the epoch guard admits only totals counted after the mark of the applied epoch |
| Round.StepBounded | src/stats.rs:2272-2310 | every step of resets, snapshots, shares, writer and restart keeps the persisted round within what was counted after the mark of the last applied epoch |
| Round.NeverResurrected | src/stats.rs:2723-2757 | the same over every run, however long a reset stays parked |
| RoundRuns.RunCounts | src/stats.rs:2085-2090 | within a boot each count is the number of shares counted, and work wiped and standing together are the credits given |
| RoundRuns.WorkSinceZeroing | src/stats.rs:2272-2310 | memory's work is exactly the credits since the last zeroing, or since the boot on top of what it found |
| RoundRuns.SharesSinceReading | src/stats.rs:2272-2310 | while nothing saturates, memory's count is exactly the shares since some reset's reading, or since the boot |
| RoundRuns.BootRoundCounts | src/stats.rs:1302-1333 | before a reset of this boot lands, the disk holds at most what the boot found and what was counted since |
| RoundRuns.PersistedSinceReset | src/stats.rs:1302-1333 | once the reset of an epoch has landed, the persisted shares and work are at most those counted after readings and a zeroing made before that epoch began |
| RoundRuns.MergeIsMax | src/stats.rs:1302-1333 | a snapshot keeps the larger of each counter |
| RoundRuns.PersistedNeverFalls | src/stats.rs:1302-1333 | until a reset lands no sequence of snapshots lowers a persisted counter |
| Round.SerialRunsCountFromOwnReading | src/stats.rs:2272-2310 | with resets one at a time the bound is the applied reset's own reading |
| Round.OverlappingResetsOvercount | src/stats.rs:2272-2310 | a run of two overlapping resets breaks that bound |
| Round.LowerReadingOvercounts | src/stats.rs:2272-2310 | from any state where a lower accepted or rejected reading is in play at the bump, some continuation persists more than was counted since the reset's own reading |
| Round.OwnReadingBoundsIff | src/stats.rs:2272-2310 | for the accepted and for the rejected count, every continuation stays within the own reading if and only if no lower reading is in play at the bump |
| Round.StartSettles | src/stats.rs:2005-2020 | an empty database and a fresh process satisfy what the run theorems assume |
| Round.AlwaysSettling | src/stats.rs:1302-1333 | the current epoch's reset is always applied, waiting or dropped, and marks are exact between resets |
| Round.QuietIsExact | src/stats.rs:2226-2238 | once quiet, the writer is at memory's epoch and disk never exceeds memory |
| Round.SnapshotQueued | src/stats.rs:2723-2761 | a snapshot nobody interrupts queues exactly memory's view under the current epoch, behind whatever waits |
| Round.CleanStop | src/stats.rs:2770-2780 | whatever is queued ahead of the final snapshot and flushed behind it, every healthy run of the writer that empties the queue leaves disk equal to memory, and the next boot shows the same round |
| Round.QueueDrains | src/stats.rs:1091-1121 | such a run exists from every queue |
| Round.RetryThenStop | src/stats.rs:1108-1117 | parked resets do no harm when the retry pass empties the backlog first |
| Shutdown.ShutdownExactIff | src/stats.rs:2770-2780 | over the loop's own order, parked resets allowed: the shutdown leaves disk and memory with the same round and epoch, and the next boot with that round, if and only if the current reset has landed, is queued, or is parked with no stuck resolution ahead of it |
| Shutdown.SnapshotTurn | src/stats.rs:1302-1333 | after a retry pass the final snapshot makes disk equal to memory exactly when its epoch's reset will ever land |
| Shutdown.FullReset | src/stats.rs:2272-2310 | a reset nobody interrupts empties memory's round and queues one write for the new epoch |
| Shutdown.LateResetWipes | src/stats.rs:1191-1210 | from every idle state some run ends idle again, a parked reset having landed after a newer one, with a share in memory's round and none on disk |
| Shutdown.FinishedRoundComesBack | src/stats.rs:1191-1210 | from every idle state some run parks a reset and its block's row behind a stuck resolution, and a shutdown on a healthy disk then leaves the database as the finished round left it |
| Blocks.RecountCovers | src/stats.rs:802-820 | the three case sums count every row exactly once |
| Blocks.ApplyBlocks | src/stats.rs:1249-1301 | a write can only add a missing row or resolve an open one, and a resolution succeeds only if its row exists |
| Blocks.BookResolution | src/stats.rs:2364-2399 | the counter a resolution lowers is never at zero, so saturation never hides a count |
| Blocks.VerdictStands | src/stats.rs:2364-2399 | a block is resolved at most once |
| Blocks.StepTight | src/stats.rs:2324-2399 | without repeated reports, counters are the recount of what is owed and every owed row is in the table or on its way |
| Blocks.StepLoose | src/stats.rs:2324-2399 | with repeats too, counters never fall below the number of reports and only reported blocks have rows |
| Blocks.StartKeeps | src/stats.rs:1862-1875 | an empty block table with zero counters satisfies what the run theorem assumes |
| Blocks.CountersAgreeIff | src/mining/accounting.rs:142-182 | over every run, once drained, counters equal the recount if and only if no block was reported twice |
| Blocks.NoneForgotten | src/stats.rs:2324-2399 | in every run, restarts and repeated reports included, a block without its verdict is pending, or its report or resolution is under way |
| Blocks.TwiceReportedDisagrees | src/mining/accounting.rs:142-158 | a run that reports one block twice ends drained with counters that differ from the recount |
| Blocks.JamIsReachable | src/stats.rs:1279-1301 | from an empty pool, a sweep that resolves a block before its row is queued and one failed write park the resolution ahead of the row |
| Submission.SubmitInline | src/mining/engine.rs:385-404 | it settles on the first non-transient answer of three, and hands over only if all three were transient |
| Submission.PassesUntilDeadline | src/mining/engine.rs:421-480 | the background task gets the clock readings before the first at or past the deadline |
| Submission.Resubmit | src/mining/engine.rs:421-480 | it records a verdict exactly when that is the first non-transient answer before the deadline |
| Submission.Submit | src/mining/engine.rs:363-480 | whatever the node answers, at most one outcome is recorded, and it is the first non-transient answer |
| Confirm.ConfirmedStands | src/mining/confirm.rs:53-73 | a Confirmed verdict survives any number of reorganisations of fewer than depth blocks |
| Confirm.OrphanedStands | src/mining/confirm.rs:53-73 | an Orphaned verdict survives any number of reorganisations of at most depth blocks |
| Confirm.ConfirmedCanFall | src/mining/confirm.rs:53-73 | at the moment of the verdict a reorganisation of exactly depth new blocks can undo it |
| Confirm.OrphanedCanFall | src/mining/confirm.rs:53-73 | and one of depth + 1 blocks can undo an Orphaned verdict |
| Confirm.VerdictIff | src/mining/confirm.rs:53-73 | on any chain: Confirmed exactly from the depth-th confirmation on, Orphaned exactly when the chain without the block is depth blocks past its height |
| Confirm.SplitProbeAgreesIff | src/bitcoin/rpc.rs:423-451 | a two-read probe's final verdict is the later chain's own exactly when the block's place did not change in between |
| Confirm.SplitProbeMisjudges | src/bitcoin/rpc.rs:423-451 | one disconnected block between the reads declares a confirmed block orphaned, on chains where every block has one height |
| Confirm.DecideIff | src/mining/confirm.rs:93-140 | which reading, at what age, gives which resolution |
| Confirm.SweptExactly | src/mining/confirm.rs:93-124 | a sweep retires a pending block exactly when its reading decides it, and queues that one resolution for it |
| Confirm.ResetsFollowFinds | src/stats.rs:2364-2399 | a resolution resets the round exactly when it promotes a block, and finds, orphans and resets stay in balance |
| Confirm.ReportIsRun | src/mining/accounting.rs:142-158 | reporting a block is a run of the interleaved accounting |
| Confirm.SweepIsRun | src/mining/confirm.rs:93-124 | a sweep is a run of the interleaved accounting, with the same counters, pending blocks and queued writes |
| Confirm.FoundBlocks.RecordOutcome | src/mining/accounting.rs:142-158 | one counter moves, a win resets the round, and only the first report of a pending hash is enrolled |
| Confirm.FoundBlocks.ResolveBlock | src/stats.rs:2364-2399 | only a pending block is resolved, and the counters move by its submit-time verdict |
| Confirm.FoundBlocks.Sweep | src/mining/confirm.rs:93-124 | the loop over a copy of the pending set is the specified sweep |
| Credit.ShareCredit.constructor | src/mining/credit.rs:69-81 | the floor is at least one and the first share counts as an assignment change |
| Credit.ShareCredit.Credit | src/mining/credit.rs:91-137 | each call updates the session and pays floor or effective difficulty as specified |
| Credit.CreditBounds | src/mining/credit.rs:91-137 | every share of every trace is paid the floor, or above it the smaller of assignment and stamp, which a believed session always gets |
| Credit.EvidenceIff | src/mining/credit.rs:91-137 | evidence is a hash under 99% of what it had to clear, under an assignment older than thirty seconds |
| Credit.GraceRestartsIff | src/mining/credit.rs:91-137 | exactly assignment changes and redemptions restart the grace period and drop the evidence |
| Credit.OverpaidAtMostTwoPerReset | src/mining/credit.rs:91-137 | over any trace at most two late low shares are paid above the floor for the start and for each assignment change or redemption |
| Credit.FlaggedAtThreeIff | src/mining/credit.rs:34-37 | between resets a session is flagged exactly at its third late low share |
| Credit.RedeemedAtTwentyIff | src/mining/credit.rs:38-43 | a flagged session is redeemed exactly by its twentieth good share in a row |
| Credit.GoodSharesEarnInFull | src/mining/credit.rs:91-137 | a session meeting its effective difficulty on every share is never flagged and always paid it |
| Credit.HonestHashesEarnInFull | src/mining/credit.rs:46-49 | the same from the hashes: meeting the target is enough, without the tolerance |
| Decay.IdleTicksClosed | src/mining/hashrate.rs:59-74 | idle ticks one by one, snapping each time, equal one power and one snap |
| Decay.RestoreEqualsReplay | src/mining/hashrate.rs:176-194 | the closed form over any downtime equals replaying its ticks and remainder |
| Decay.RestoredIsMetered | src/mining/hashrate.rs:176-194 | a restored window reads what the meter would have read, ticking every two seconds with nothing coming in until the downtime ended |
| Decay.HashrateDecay.DecayIdleFor | src/mining/hashrate.rs:176-194 | the loop leaves every window at its replayed value |
| Decay.HashrateDecay.RestoredRates | src/mining/hashrate.rs:156-174 | a checkpoint, negatives counting as zero, is restored to its replayed value |
| Decay.HashrateDecay.Tick | src/mining/hashrate.rs:206-213 | every window is folded with the same pending amount and the same gap, at least a millisecond |
| Decay.TicksFollowTheClock | src/mining/hashrate.rs:206-213 | over any run of ticks each window is the averaging step over the time between them, at least a millisecond |
| Decay.HashrateDecay.AddShare | src/mining/hashrate.rs:199-203 | only positive amounts accumulate |
| Decay.ConstantRateContracts | src/mining/hashrate.rs:59-74 | fed a constant rate at any spacing, the averaging step shrinks the distance to it by the product of 1/(1+p) and the reading stays between |
| Decay.MeterContracts | src/mining/hashrate.rs:59-74 | the same of decay_time itself, snap included, towards any rate of at least 2e-16, whenever the first step leaves at least 2e-16 |
| Decay.HeldReadingShows | src/mining/hashrate.rs:59-74 | which it does from every non-zero reading a meter can hold |
| Decay.FreshMeterContractsIff | src/mining/hashrate.rs:59-74 | a new meter follows the contraction at every tick exactly when its first step reaches 2e-16; a smaller first step snaps back to zero |
| Decay.BurstBound | src/mining/hashrate.rs:59-74 | from zero a meter never reads more than its total credit over its window, snap included |
| Decay.MetersAdd | src/mining/hashrate.rs:53-57 | the averaging steps of two meters on the same tick add up |
| Decay.MetersAddUp | src/mining/hashrate.rs:53-57 | over whole runs, snap included, the sum of two meters is within 4e-16 per tick of the meter of their sums |
| Decay.CorrectedReadingIsLow | src/mining/hashrate.rs:85-95 | for any spacing of ticks from zero, up to 36 windows, the meter's corrected reading is strictly below the true rate |
| Vardiff.SentBounds | src/mining/vardiff.rs:165-176 | an emitted value respects floor and ceiling, and is within the factor up to rounding unless the ceiling is below that range, when it is the ceiling |
| Vardiff.SentForAReason | src/mining/vardiff.rs:152-184 | raises need the optimum at the deadzone's upper edge; cuts need its lower edge or a lower ceiling, and two shares |
| Vardiff.AveragesAreMeters | src/mining/vardiff.rs:97-113 | over every run the two averages are meters over 20 and 120 target times, fed the shares' credits and the clock's differences |
| Vardiff.AnchoredAtFirstShare | src/mining/vardiff.rs:97-101 | the session's age counts from its first share |
| Vardiff.TriggerShares | src/mining/vardiff.rs:63-69 | the trigger is the nearest number of shares that fills an interval, but four |
| Vardiff.NothingSentUntilDue | src/mining/vardiff.rs:120-134 | before the first share, or before trigger and interval, a check only decays |
| Vardiff.RetargetFollowsTheRate | src/mining/vardiff.rs:136-195 | if the average in force over its warm-up share times the target is x times the difficulty, nothing is sent for x inside the deadzone and otherwise x times the difficulty within factor, floor and ceiling, a first cut spared |
| Vardiff.OtherAverageIsIgnored | src/mining/vardiff.rs:136-146 | the slow average has no say at the share trigger, nor the fast one before it |
| Vardiff.HintIsTaken | src/mining/vardiff.rs:88-94 | a hint is applied at the nearest value in range and opens a window |
| Vardiff.StepInRange | src/mining/vardiff.rs:88-201 | every event keeps the difficulty in its configured range |
| Vardiff.CutsCostTwoShares | src/mining/vardiff.rs:178-184 | over any run twice the number of cuts is at most the number of shares |
| Vardiff.EmissionsAreSpaced | src/mining/vardiff.rs:126-134 | between emissions a full interval passes or the trigger number of shares arrives |
| Vardiff.EmissionOpensWindow | src/mining/vardiff.rs:186-201 | an emission starts the window from which the next is measured |
| Vardiff.Controller.Suggest | src/mining/vardiff.rs:88-94 | a hint is clamped and opens a window |
| Vardiff.Controller.RecordShare | src/mining/vardiff.rs:97-101 | a share anchors the session once and is folded into both averages |
| Vardiff.Controller.CheckRetarget | src/mining/vardiff.rs:120-195 | the method is the specified decision |
| Jobs.IssuedJobs.Issue | src/mining/jobs.rs:31-46 | a clean job supersedes all earlier ones and the history keeps the last sixteen |
| Jobs.IssuedJobs.Find | src/mining/jobs.rs:48-53 | the oldest entry with that id, or none exists |
| Jobs.ShareSet.Insert | src/mining/validator.rs:138-150 | a repeated key changes nothing; a new key is appended and only the oldest of 4096 leaves |
| Session.CanonicalSplits | src/mining/identity.rs:54-58 | splitting a canonical name at its first dot gives address and label back |
| Session.PayoutsAreBound | src/network/session.rs:680-704 | in every run each job in the history pays the identity now authorized, and each booked block pays the address part of its worker |
| Session.SubmissionEarnsIff | src/network/session.rs:758-960 | a submission changes a session exactly when validation passed it, the authorized spelling sent it, its job is live and its key new; then its key is remembered and only a winning one is booked, under its job's payout |
| Session.AcceptedWasEarned | src/network/session.rs:758-879 | in every run each accepted key was earned by a submission of the run |
| Session.BookedWasWon | src/network/session.rs:895-930 | and each booked block by a winning one |
| Session.DeliveryEffect | src/network/session.rs:278-319 | a new tip clears keys and retires jobs, another refresh neither, and an authorized session gets one new live job paying its address behind its newest fifteen |
| Session.AuthorizeEffect | src/network/session.rs:680-752 | a new identity needs room and starts without jobs or keys, another spelling of the same one keeps its keys, and a clean job paying the address follows |
| Session.RefreshEffect | src/mining/engine.rs:219-290 | a refresh is broadcast clean exactly when the tip is new |
| Session.NoKeyAcceptedTwice | src/network/session.rs:828-879 | no key is accepted twice while the set never overflows and fewer than 2^32 jobs were issued |
| Session.RefusedIffInWindow | src/mining/validator.rs:122-157 | an otherwise valid key is refused as a duplicate exactly when it is among the last 4096 accepted since the last clear |
| Session.OldestKeyComesBack | src/mining/validator.rs:138-150 | from any session with a live job and an empty set, 4097 accepted keys later the first is accepted again |
| Session.KeyTellsHeadersIff | src/mining/validator.rs:320-341 | submissions alike but for their version bits share a key exactly when they share a header, for all bits, if and only if rolling is on and the template's version has no bit inside the mask |
| Session.OneHeaderBookedTwice | src/network/session.rs:796-834 | with rolling off, from any session, one winning header submitted with two spellings of its version bits is accepted and booked twice |
| Session.LiveJobsShareOneTip | src/network/session.rs:278-319 | for a session that misses nothing, live jobs build on the last template's tip and are the newest of the history, withdrawals included |
| Session.ConnectInStep | src/network/session.rs:184-195 | subscribing and reading the template with no refresh between starts such a session |
| Session.OneTipIffInStep | src/network/session.rs:278-319 | for every open session, all runs that miss nothing from here on keep one tip if and only if its next broadcast continues the template it holds |
| Session.FreshOneTipIff | src/network/session.rs:184-195 | in particular for a session that subscribes and then reads the template, with refreshes between the two |
| Session.LagIsSafeIff | src/network/session.rs:320-322 | a lag of any length is harmless if and only if the session is in step after it |
| Session.OutOfStepMixes | src/network/session.rs:278-319 | from any session out of step, live jobs on two tips are reachable |
| Session.LagMixesTips | src/network/session.rs:320-322 | missing a tip change that an unclean job on the new tip follows always makes them reachable |
| Session.MinerSession.OnBroadcast | src/network/session.rs:278-319 | the broadcast handler is the specified delivery |
| Session.MinerSession.OnAuthorize | src/network/session.rs:680-752 | the authorize handler is the specified step |
| Session.MinerSession.OnSubmit | src/network/session.rs:758-879 | the submit handler accepts, remembers and books as specified |

## Left out

- Dashboard, metrics, process wiring, configuration parsing, the node clients, Stratum V2 and JSON: no
  deep property; identities arrive parsed, with a dot-free address and a non-empty label.
- SQLite, SHA-256, the exponential and floating-point rounding: a transaction is atomic, hashing and
  `1 - exp(-x)` are function parameters, averages are over reals.
- Validation of a submission beyond staleness, the target and the header's version field (ntime window,
  header and block bytes): its verdict is an input of `Session`.
- Rejections by reason within a round: they follow the accepted and rejected counts in `Round`, under
  mutexes, and add no new argument.
- Best-share and best-hashrate watermarks across a reset: the code does not guard them by epoch.
- Wrap-around of 64-bit counters incremented one by one, and of the 32-bit confirmation count.
- The found counter and the inconclusive counter of one promotion move in one step in `Blocks`.
- Database reads that fail at boot, which fall back to zero.
- Timestamps of round resets and the boot-time recovery that compares them with the rows of won blocks.
- Job-build failures end a session in the source; `Session` models that only for a missing identity.
- Session.NoKeyAcceptedTwice: is about keys; Session.KeyTellsHeadersIff says when they stand for headers.
  It assumes fewer than 2^32 jobs per process, because ids repeat after that.
- WorkHistory.SubHourExactIff: assumes every filed row is non-zero, as every recorded share makes it.
- Vardiff.EmissionsAreSpaced: assumes a clock that does not run backwards, as the source's does not.
- LedgerMinutes.SharesLandInTheirMinute: assumes a clock that does not go back; a share recorded behind
  the open minute is staged in that minute, as ShareLedger.LedgerAccum.Record states.
- RoundRuns.SharesSinceReading: assumes fewer than 2^64 shares, where the lifetime counts saturate.
- WorkHistory scopes are sets of worker ids; matching an address or a name to ids is left out.
- Round.CleanStop: assumes no reset is parked, because it covers every order of healthy steps;
  Shutdown.ShutdownExactIff allows parked resets and follows the order of the writer's loop.
- Shutdown.ShutdownExactIff: what is flushed behind the final snapshot holds no new block row, as the
  shutdown itself sends only the open ledger minute, and the backlog does not overflow meanwhile.
- LedgerStop.ShutdownKeepsAllIff: assumes the backlog does not overflow meanwhile; Drain.RoomForAll
  gives the room that is enough.
- Decay.ConstantRateContracts: the averaging step without the final snap to zero, which
  Decay.MeterContracts adds.
- Decay.MetersAdd: one tick, without the snap; Decay.MetersAddUp adds both.
