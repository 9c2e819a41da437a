# Models of the oppen core

This project models five components of oppen, a trading console for a perpetuals venue, and
proves what they promise over every input and every run.

- **Candle engine** (`Interval`, `GroupBy`, `Resampler`, `Compose`, `ComposeExact`, `ResampleGaps`,
  `Aggregator`, `AggregatorRuns`, `AggregatorBuckets`, `AggregatorFills`). Interval strings and
  their canonical forms; the single-pass resampler, against a declarative group-by-bucket specification that has
  exactly one solution; when resampling in two stages equals resampling at once; when the output
  is gap-free; the aggregator that turns prints into bars, over whole runs and bucket by bucket.
- **Book walk** (`Book`). The greedy fill and the separately coded "largest notional within N
  bps" solver, over reals.
- **Agent-wallet store** (`KeyNames`, `KeyStore`, `KeyRuns`). Create, rotate, load and delete
  over a bare key/value store, as a component whose every backend call may fail and as a
  transition system that may stop between any two of them.
- **Feed admission** (`Ingress`, `Feed`, `FeedRuns`). The session's epoch and the ingress
  monitor's observation, interleaved freely, with admission guards held and released.
- **Live chart** (`Chart`, `ChartTape`, `ChartRuns`, `ChartOrder`, `ChartProps`, `ChartBars`,
  `ChartFreeze`, `ChartOutcomes`, `LiveChart`). A bounded view over prints, websocket candles and
  fenced history.

State that the program updates in place is a class here (`LocalAggregator`, `WalletStore`,
`IngressMonitor`, `FeedSession`, `LiveChart`), and its loops are loops; each method is proved
against a function on the component's value, and the theorems about runs are about those
functions. What each operation answers is stated once more from its fields alone, so that no
answer rests on how those functions are written. `dafny verify dfyconfig.toml` checks everything.

Where the program and an expected property part ways, the program is modelled as it is, with an
input or a run that shows it and the exact condition:

- `resample` seals only the bucket it leaves behind, so a target bucket with no source bars at
  all goes unnoticed (`crates/oppen-core/src/candles.rs:818-824`). `ResampleGaps` gives an input
  and proves that the output is gap-free if and only if the source bars it is made of are.
- For the same reason two stages may succeed where the direct resample is refused:
  `ComposeExact` gives an input and the condition, both ways.
- With no bucket open, `close_through` enters whatever bucket its clock names
  (`crates/oppen-core/src/candles.rs:1182-1184`), so a clock behind the last bar returned breaks
  the ascending order. `AggregatorBuckets.UnsafeRunEmitsTwice` is such a run;
  `AggregatorRuns.SafeRunsAscend` and `OrderBreaksExactlyWhenUnsafe` state the obligation on the
  caller and that it is exact.
- After an interruption a print, or the clock, may reopen the newest bucket
  (`crates/oppen-core/src/candles.rs:1133`), so a bar can miss prints that were accepted.
  `AggregatorBuckets` gives runs, one of them ending in a flat bar where a print was seen, and
  proves that a bar misses exactly the prints of its bucket that were discarded.

## Model

| member | source | states |
|---|---|---|
| `Intervals.ParseExact` | crates/oppen-core/src/candles.rs:270-298 | A string spelling `count` and a unit is accepted exactly when its width is in (0, one month]; the parsed interval has that width and is canonical (coarsest exact unit); otherwise zero is told from too large. |
| `Intervals.ParseRefusesTheRest` | crates/oppen-core/src/candles.rs:270-298 | Every string that is not a count followed by a known unit is refused, as empty, of unknown unit, without a count or with a count that is not a number: the first that applies. |
| `Intervals.CanonicalOfIsCanonical` | crates/oppen-core/src/candles.rs:302-317 | Canonicalising keeps the width and always yields the coarsest unit that divides it. |
| `Intervals.SpelledWidth` | crates/oppen-core/src/candles.rs:122-158 | The letters s m h d w M, case mattering, stand for a second, minute, hour, day, week and thirty days; any other letter is an unknown unit. |
| `Intervals.CanonicalUnique` | crates/oppen-core/src/candles.rs:302-317 | A width has one canonical interval. |
| `Intervals.EqualExactlyWhenSameWidth` | crates/oppen-core/src/candles.rs:173-183 | Canonical intervals are equal exactly when their widths are, so ordering by width agrees with equality. |
| `Intervals.PrintParseRoundTrip` | crates/oppen-core/src/candles.rs:400-402 | Printing a canonical interval and parsing it back is the identity. |
| `Intervals.LargestDivisorIsLargest` | crates/oppen-core/src/candles.rs:347-370 | The backwards search of the menu finds the widest strictly narrower native divisor, and finds none only when there is none. |
| `Intervals.MenuWidths` | crates/oppen-core/src/candles.rs:241-256 | The fourteen native widths, in minutes. |
| `Intervals.ResolveExact` | crates/oppen-core/src/candles.rs:347-370 | Native exactly for menu widths; resampled exactly for the other whole-minute widths, from the largest narrower native divisor, whose history is full exactly from one day up and the last 5,000 bars below; local otherwise, sub-minute exactly below one minute. The source always passes the two width checks of `resample`. |
| `Common.BucketContains` | crates/oppen-core/src/candles.rs:384-394 | The bucket start is aligned and its bucket contains the instant. |
| `Common.BucketUnique` | crates/oppen-core/src/candles.rs:384-394 | No other aligned bucket contains it. |
| `Resampler.Resample` | crates/oppen-core/src/candles.rs:765-860 | The single pass, for every input: succeeds exactly when the widths divide, the bars are aligned and ascending and every non-empty bucket except a leading one opened off its boundary is full (the last: an unbroken prefix); the result is the group-by; the error is the first rule broken, reading the widths and then the bars from left to right. |
| `Resampler.ResamplePass` | crates/oppen-core/src/candles.rs:786-860 | The loop itself, proved with the same contract once the two width checks have passed. |
| `Resampler.RefusalIsUnique` | crates/oppen-core/src/candles.rs:765-860 | The input fixes the refusal: however many rules it breaks, only one error is the first one, with its place and counts. |
| `Resampler.CellDecides` | crates/oppen-core/src/candles.rs:871-902 | For a bucket under construction, `got == want` and `is_contiguous_prefix` decide exactly whether its group is full or unbroken. |
| `Resampler.SealDecides` | crates/oppen-core/src/candles.rs:874-886 | Sealing a bucket left behind is right: a short one that is not a dropped leading bucket makes the whole input unacceptable, whatever follows. |
| `Resampler.LeftBehindIsFinal` | crates/oppen-core/src/candles.rs:818-824 | A bucket the pass has left can no longer change, so deciding it early is sound. |
| `Resampler.Finish` | crates/oppen-core/src/candles.rs:839-859 | The trailing bucket decides the outcome: dropped if it is a leading partial one, kept if unbroken, otherwise refused. |
| `GroupBy.CountDecidesFull` | crates/oppen-core/src/candles.rs:871-902 | On aligned ascending bars of one bucket, counting decides fullness and the last open decides contiguity. |
| `GroupBy.SpanCounts` | crates/oppen-core/src/candles.rs:895-902 | A run of n aligned ascending bars spans n - 1 widths exactly when it has no hole. |
| `GroupBy.CellsAreGroups` | crates/oppen-core/src/candles.rs:786-860 | The incremental buckets are exactly the groups: first open, max high, min low, last close, summed volume and (saturating) trades. |
| `GroupBy.KeptIsGroupBy` | crates/oppen-core/src/candles.rs:786-860 | What a successful pass returns is one summary per non-empty, non-dropped bucket, ascending. |
| `GroupBy.GroupByUnique` | crates/oppen-core/src/candles.rs:765-860 | The group-by specification has exactly one solution. |
| `Compose.AbsorbAssociates` | crates/oppen-core/src/candles.rs:809-817 | Absorbing a bar is associative, saturating trade counts included. |
| `Compose.SumsCompose` | crates/oppen-core/src/candles.rs:786-860 | Grouping into b then into c gives the bars of grouping into c, for every sequence of bars. |
| `Compose.GapFreeIsAccepted` | crates/oppen-core/src/candles.rs:786-902 | A gap-free aligned run is never refused. |
| `Compose.ResamplingComposes` | crates/oppen-core/src/candles.rs:765-902 | Whenever a to b and a to c both succeed, b to c of the intermediate bars succeeds with exactly the bars of a to c, gaps between buckets, dropped leading bucket and forming bucket included. |
| `Compose.GapFreeRunsCompose` | crates/oppen-core/src/candles.rs:765-902 | On every gap-free aligned run and a | b | c, each coarser, all three succeed and agree. |
| `ComposeExact.StagedMatchesDirectExactlyWhen` | crates/oppen-core/src/candles.rs:765-902 | After a successful a to b: a to c succeeds if and only if b to c does and the first intermediate bar lies in the first bar's own c bucket or starts one; then the results are equal. |
| `ComposeExact.StagingCanHideAHole` | crates/oppen-core/src/candles.rs:818-824 | One-second bars on which both stages (2 s, then 4 s) succeed and the direct resample is refused: the condition above is needed. |
| `ResampleGaps.OutputIsGapFreeExactlyWhenInputIs` | crates/oppen-core/src/candles.rs:818-824 | The output of every successful resample is gap-free if and only if the source bars past a dropped leading bucket are: an empty target bucket goes unnoticed exactly when the source skips it. |
| `ResampleGaps.ResampleCanSkipBuckets` | crates/oppen-core/src/candles.rs:818-824 | One-second bars at 0, 1, 6 and 7 s are accepted into 2 s and give bars at 0 and 6 s only. |
| `Aggregator.LocalAggregator.constructor` | crates/oppen-core/src/candles.rs:985-1001 | A new aggregator: nothing open, accepting from the first whole bucket. |
| `Aggregator.LocalAggregator.Resume` | crates/oppen-core/src/candles.rs:1010-1021 | Resuming carries the history floor and last close and nothing else. |
| `Aggregator.LocalAggregator.Push` | crates/oppen-core/src/candles.rs:1119-1150 | Range, history and lateness refusals, each counted and changing nothing else; otherwise the bucket change and the fold. |
| `Aggregator.LocalAggregator.CloseThrough` | crates/oppen-core/src/candles.rs:1165-1174 | Closing on the clock: acts only inside the accepted range and fills only to the vouched feed time. |
| `Aggregator.LocalAggregator.AdvanceTo` | crates/oppen-core/src/candles.rs:1180-1214 | Emits the open bucket, then at most `MAX_FILL_BARS` flat bars, counting skipped ones; the loop yields exactly the specified bars. |
| `Aggregator.LocalAggregator.EnterBucket` | crates/oppen-core/src/candles.rs:1216-1221 | Entering a bucket never lowers the high-water mark. |
| `Aggregator.LocalAggregator.FeedInterrupted` | crates/oppen-core/src/candles.rs:1095-1101 | An interruption discards the open bucket and its bar, counts a gap if there was one, and keeps the last close and the high-water mark. |
| `AggregatorFills.AdvanceLeaves` | crates/oppen-core/src/candles.rs:1180-1214 | Leaving a bucket emits exactly: its own bar if it has prints, or a flat one if vouched for; and one flat bar at the known close for every whole bucket after it, before the target and vouched for, unless the 10,001st is due, which is when and only when a skipped fill is counted. |
| `AggregatorFills.PushRefuses` | crates/oppen-core/src/candles.rs:1119-1137 | Refused are exactly the prints out of range, before the first whole bucket, or older than the newest bucket ever entered; each is counted once and nothing else changes. |
| `AggregatorFills.PushAccepts` | crates/oppen-core/src/candles.rs:1137-1150 | An accepted print enters its bucket, leaves an earlier open one, and opens or extends the bar of its own. |
| `AggregatorFills.CloseExact` | crates/oppen-core/src/candles.rs:1165-1174 | A close acts exactly between the first whole bucket and the end of the calendar, and vouches through the clamped feed time and no further. |
| `AggregatorFills.AcceptsFromFirstWholeBucket` | crates/oppen-core/src/candles.rs:1026-1034 | A new aggregator accepts from the least aligned instant at or after it began to listen. |
| `AggregatorFills.SessionHasNoHoles` | crates/oppen-core/src/candles.rs:1180-1214 | Over any calls without an interruption and without a skipped fill, every bucket after an emitted bar that has been left, vouched for through it, has a bar: none is missing between two emitted bars. |
| `AggregatorRuns.NoteFollowsStep` | crates/oppen-core/src/candles.rs:1095-1221 | The bookkeeping used below follows the component: same state, exactly the bars it returns, nothing removed. |
| `AggregatorRuns.CallsAreBounded` | crates/oppen-core/src/candles.rs:1180-1214 | No call returns more than `MAX_FILL_BARS + 1` bars. |
| `AggregatorRuns.StepKeepsGood` | crates/oppen-core/src/candles.rs:1095-1221 | Every call keeps conservation, exact bars and honest flat bars. |
| `AggregatorRuns.EveryRunIsGood` | crates/oppen-core/src/candles.rs:1026-1221 | In every run from a new or resumed aggregator: each print pushed is in exactly one of out-of-range, before-history, late, emitted, forming or discarded, with matching counters; each bar with prints is exactly their aggregate; each bar without is flat at the previous close, in a bucket entered since the last interruption and not past the vouched time; all are aligned and one width wide, at or after the first accepted bucket. |
| `AggregatorRuns.SafeRunsAscend` | crates/oppen-core/src/candles.rs:1119-1221 | All bars of all calls are strictly ascending over every run in which, with no bucket open, the clock passed to `close_through` is past the last bar returned. |
| `AggregatorRuns.OrderBreaksExactlyWhenUnsafe` | crates/oppen-core/src/candles.rs:1182-1184 | That obligation is exact: after a close with no bucket open, the next live print leaves the bars in order if and only if the close met it. |
| `AggregatorBuckets.UnsafeRunEmitsTwice` | crates/oppen-core/src/candles.rs:1182-1184 | A run from a new aggregator, with one close behind its last bar, that emits the bucket at 1 s twice. |
| `AggregatorBuckets.BarsMissExactlyTheDiscarded` | crates/oppen-core/src/candles.rs:1095-1150 | Over every run that meets the obligation and for every bar emitted: the accepted prints of its bucket are, in order, those an interruption discarded followed by those the bar is made of; so the bar is the aggregate of all of them if and only if none of its bucket was discarded. |
| `AggregatorBuckets.StepKeepsAccount` | crates/oppen-core/src/candles.rs:1095-1221 | Every call keeps that account, bucket by bucket. |
| `AggregatorBuckets.ReopenedBarMissesAPrint` | crates/oppen-core/src/candles.rs:1133-1150 | A run from a new aggregator whose bar misses an accepted print: the bucket was interrupted and reopened. |
| `AggregatorBuckets.FlatBarOverADiscardedPrint` | crates/oppen-core/src/candles.rs:1165-1200 | A run whose flat bar stands in a bucket where a print was accepted and then discarded. |
| `Book.Take` | crates/oppen-core/src/book.rs:90-104 | The loop computes the greedy fill for every ladder and size. |
| `Book.MaxNotionalWithin` | crates/oppen-core/src/book.rs:131-177 | The loop computes the band solver's value for every ladder, side and band. |
| `Book.Walk` | crates/oppen-core/src/book.rs:57-86 | The whole report, empty side and zero size included: the side is the one the order takes, the average times the size is the notional, and the slippage times the touch is ten thousand times the adverse distance; on a usable ladder the slippage is within a band exactly when the notional is within that band's figure. |
| `Book.FillSize` | crates/oppen-core/src/book.rs:90-104 | The walk takes the smaller of the request and the whole side. |
| `Book.SolverMatchesWalk` | crates/oppen-core/src/book.rs:131-177 | From any point inside the band, a further walk stays inside exactly when its notional stays at or below the solver's value. |
| `Book.WalkWithinBandIff` | crates/oppen-core/src/book.rs:57-104 | For every ladder, side, positive size and band: the walk slips at most N bps if and only if the notional it walked is at most the solver's value. |
| `Book.WithinBandInPrices` | crates/oppen-core/src/book.rs:131-177 | The same in prices: the notional is within the figure for N bps exactly when the average is at most N ten-thousandths of the touch away from it. |
| `Book.SlipInPrices` | crates/oppen-core/src/book.rs:68-76 | Slippage times the touch is ten thousand times the adverse distance of the average, and a better average slips by nothing. |
| `Book.ReachIsLastLevel` | crates/oppen-core/src/book.rs:114-123 | The reach is the distance of the last level from the touch, in ten-thousandths of the touch; absent exactly without a usable touch. |
| `Book.BandIsAttained` | crates/oppen-core/src/book.rs:131-177 | Some positive walk has exactly the solver's notional: it is the true maximum, and positive. |
| `Book.BandIsMonotone` | crates/oppen-core/src/book.rs:131-177 | Widening the band never lowers the figure. |
| `Book.WholeSideIff` | crates/oppen-core/src/book.rs:131-177 | The figure never exceeds the side, and equals it exactly when the whole side averages inside the band. |
| `Book.GreedyIsOptimal` | crates/oppen-core/src/book.rs:90-104 | No allocation of the same size to levels is cheaper (buy) or richer (sell) than the greedy walk. |
| `Book.GreedyIsAllocation` | crates/oppen-core/src/book.rs:90-104 | The greedy walk is itself such an allocation, so the bound is attained. |
| `Book.MarginalPrice` | crates/oppen-core/src/book.rs:90-104 | Walking further never does better than the best remaining price. |
| `Book.ShortLadderReportsWholeSide` | crates/oppen-core/src/features.rs:278-296 | A side whose reach is inside the band reports its full notional. |
| `KeyNames.CheckedExact` | crates/oppen-core/src/keys.rs:375-393 | An id is usable exactly with 1 to 64 characters of A-Z a-z 0-9 - _ and dot. |
| `KeyNames.EntryNamesAreStable` | crates/oppen-core/src/keys.rs:63-87 | The frozen services and entry names. |
| `KeyNames.NamesAreInjective` | crates/oppen-core/src/keys.rs:307-393 | Printed entry names are injective over network, kind, checked id, decimal generation and address. |
| `KeyStore.NormalizeIsCanonical` | crates/oppen-core/src/keys.rs:957-964 | A normalised key is 64 lower-case digits, stable under normalising again, with or without `0x`. |
| `KeyStore.NormalizeSpellsTheSame` | crates/oppen-core/src/keys.rs:957-964 | A key is accepted exactly when it is 64 hex digits, with or without `0x`, and is stored as the same digits. |
| `KeyStore.ReadWalletExact` | crates/oppen-core/src/keys.rs:631-646 | A record is returned exactly when a readable one of a possible generation is stored under a valid id; each other case has its own answer. |
| `KeyStore.VetExact` | crates/oppen-core/src/keys.rs:916-920 | A key may be installed exactly when it is one and its address was never marked; a reused address is told from a bad key. |
| `KeyStore.PlanCreateExact` | crates/oppen-core/src/keys.rs:664-690 | Creating installs exactly generation 0 with the address of the key and the times given, and does so exactly when the id is valid, has no record and the key may be installed. |
| `KeyStore.PlanRotateExact` | crates/oppen-core/src/keys.rs:703-735 | Rotating installs exactly the next generation with the address of the key and the times given, and does so exactly when a record below the limit is stored and the key may be installed. |
| `KeyStore.InstalledLoads` | crates/oppen-core/src/keys.rs:762-780 | What has been installed loads, and gives back the key installed; no other entry changed. |
| `KeyStore.LoadKeyExact` | crates/oppen-core/src/keys.rs:762-780 | A key is loaded for a record exactly when the entry of its generation holds that key and the key derives the address recorded; absence, a value that is no key and another address each have their own error. |
| `KeyStore.WalletStore.AgentWalletOf` | crates/oppen-core/src/keys.rs:631-646 | Reading a record: bad id, missing, undecodable and past-the-limit cases told apart. |
| `KeyStore.WalletStore.VetKey` | crates/oppen-core/src/keys.rs:916-920 | A key is refused when malformed or when its address was ever marked. |
| `KeyStore.WalletStore.WriteWallet` | crates/oppen-core/src/keys.rs:933-952 | Mark, then key, then record; a backend failure leaves exactly a prefix of those writes. |
| `KeyStore.WalletStore.CreateAgentKey` | crates/oppen-core/src/keys.rs:664-690 | Installs generation 0 with the three entries, address, approval and expiry asked for, or writes nothing and says why; a failing backend leaves a prefix. |
| `KeyStore.WalletStore.RotateAgentKey` | crates/oppen-core/src/keys.rs:703-735 | Installs the generation after the stored one with the three entries asked for, or writes nothing and says why; a failing backend leaves a prefix. |
| `KeyStore.WalletStore.LoadAgentKeyWithWallet` | crates/oppen-core/src/keys.rs:762-780 | Returns the stored key of the stored record, and only if it derives the address in that record. |
| `KeyStore.WalletStore.DeleteAgent` | crates/oppen-core/src/keys.rs:809-816 | Removes the record, then every possible generation; a failing backend leaves a prefix of that sweep. |
| `KeyRuns.CallsInstall` | crates/oppen-core/src/keys.rs:933-952 | The transition system's single writes, taken together, are the component's installation. |
| `KeyRuns.CallsSweep` | crates/oppen-core/src/keys.rs:809-816 | The transition system's single removals, taken together, are the component's sweep. |
| `KeyRuns.AddressInstalledAtMostOnce` | crates/oppen-core/src/keys.rs:664-735 | In every run of create, rotate, delete and record edits over any agents, with a crash possible between any two store calls, no address is named by two record writes. |
| `KeyRuns.RecordAndKeyAlwaysAgree` | crates/oppen-core/src/keys.rs:933-952 | In every reachable state, crashed ones included, a stored record's generation has a key that derives its address, and loading it succeeds. |
| `KeyRuns.LoadSurvivesRotations` | crates/oppen-core/src/keys.rs:762-780 | A load whose record and key reads are separated by any number of other operations short of deleting that agent returns the key of the record it read. |
| `KeyRuns.GenerationsAreBounded` | crates/oppen-core/src/keys.rs:717-735 | No write passes `MAX_GENERATION`, whatever records were edited to. |
| `KeyRuns.SweepPrefix` | crates/oppen-core/src/keys.rs:809-816 | A sweep cut short after n calls has removed exactly the record and the generations below n - 1. |
| `KeyRuns.SweepIsExact` | crates/oppen-core/src/keys.rs:809-816 | An uninterrupted sweep of any reachable store removes the agent's record and keys and nothing else. |
| `KeyRuns.RevocationIsExact` | crates/oppen-core/src/keys.rs:809-816 | A delete begun in any reachable state and run to its end one removal at a time, with records edited to anything before, during and between any two removals, leaves no key of any generation of that agent, no record unless edited back, and every other entry unedited from outside as it was. |
| `KeyRuns.PartialDeleteCannotSign` | crates/oppen-core/src/keys.rs:809-816 | A delete that fails after its first call leaves an agent that cannot load a key. |
| `Feed.FeedSession.constructor` | crates/oppen-core/src/feed.rs:201-214 | A session that has seen nothing is unreconciled and unbound, in an epoch no later one can equal. |
| `Feed.FeedSession.State` | crates/oppen-core/src/feed.rs:216-230 | Caught up exactly when the flag is set and the bound monitor is drained, healthy and open; a failure is reported exactly when the session or its monitor has one, the session's first. |
| `Feed.FeedSession.Bind` | crates/oppen-core/src/feed.rs:237-256 | First scope binds, un-reconciles and opens a new epoch; another scope is refused without change. |
| `Feed.FeedSession.BindIngress` | crates/oppen-core/src/feed.rs:260-284 | Succeeds exactly when no monitor is bound, it is the bound one, or the bound one is completed, healthy and has nothing outstanding; a refusal keeps the binding and the recorded walk; any attempt with another monitor opens a new epoch. |
| `Feed.FeedSession.RecordFillWalk` | crates/oppen-core/src/feed.rs:286-303 | Kept only for a current stamp, the bound scope and ledger, and once. |
| `Feed.BindMonitorExact` | crates/oppen-core/src/feed.rs:260-284 | The same for the function the run theorems use, field by field. |
| `Feed.FeedSession.AttachLedger` | crates/oppen-core/src/feed.rs:305-321 | A different ledger is refused, un-reconciles and opens a new epoch; nothing else does. |
| `Feed.FeedSession.Admit` | crates/oppen-core/src/feed.rs:323-351 | Succeeds exactly when the session and the monitor both admit; only the monitor's guard count changes. |
| `Feed.FeedSession.MarkReconciled` | crates/oppen-core/src/feed.rs:361-371 | Takes effect only for the current stamp, and never over a failure. |
| `Feed.FeedSession.MarkUnreconciled` | crates/oppen-core/src/feed.rs:382-387 | Opens an epoch different from every earlier one and returns its stamp. |
| `Feed.FeedSession.RecordFailure` | crates/oppen-core/src/feed.rs:391-396 | Latches the first failure and opens an epoch different from every earlier one. |
| `Feed.FeedSession.Tick` | crates/oppen-core/src/feed.rs:516-519 | The freshness clock takes the maximum. |
| `Feed.FeedSession.ApplyEvent` | crates/oppen-core/src/feed.rs:406-509 | Which events open a new epoch (a disconnect, and only that), which tick, and which ask for a reconcile. |
| `FeedRuns.EpochMoves` | crates/oppen-core/src/feed.rs:181-187 | A step changes the epoch if and only if it is one of the invalidating ones, and then the session is not reconciled. |
| `FeedRuns.EpochNeverReturns` | crates/oppen-core/src/feed.rs:237-396 | Over any run, two states with the same epoch have nothing invalidating and no rebinding between them. |
| `FeedRuns.ReplacedMonitorIsDone` | crates/oppen-core/src/feed.rs:258-284 | Over any run, whenever the bound monitor changes, the one left was completed and healthy, had nothing outstanding, and had acknowledged every account frame it was ever sent. |
| `FeedRuns.RecordedWalkIsOurs` | crates/oppen-core/src/feed.rs:286-303 | In every reachable state the recorded walk covered the initial window of the bound account and ledger. |
| `FeedRuns.ReconciledHasWitness` | crates/oppen-core/src/feed.rs:361-371 | A reconciled session has a reconcile behind it that was stamped and completed in this very epoch. |
| `FeedRuns.AdmissionIsNeverStale` | crates/oppen-core/src/feed.rs:323-351 | Whenever admission succeeds for a stamp captured earlier: no disconnect, un-reconcile, failure, rebinding, ledger mismatch or account frame since; every account frame ever sent acknowledged; a reconcile of the same epoch completed. |
| `FeedRuns.AdmissionIsExact` | crates/oppen-core/src/feed.rs:323-371 | A stamp is admitted if and only if nothing invalidated or overtook it, an accepted reconcile still stands, the bound monitor is drained and healthy, and the scope matches. |
| `FeedRuns.StaleReconcileIsIgnored` | crates/oppen-core/src/feed.rs:361-371 | A reconcile stamped before an outage cannot clear it: it changes nothing. |
| `FeedRuns.FailureIsForever` | crates/oppen-core/src/feed.rs:391-396 | A recorded failure blocks admission for the rest of the session and keeps its first detail. |
| `FeedRuns.TicksNeverGoBack` | crates/oppen-core/src/feed.rs:516-519 | Over any run the freshness clock never decreases. |
| `Ingress.IngressMonitor.Register` | crates/oppen-hl/src/ws/ingress.rs:246-302 | A frame counts at invocation; exactly a delivered account frame changes the observation, to one different from every earlier one; a completed monitor takes none. |
| `Ingress.IngressMonitor.EndObligation` | crates/oppen-hl/src/ws/ingress.rs:185-196 | An obligation ends acknowledged, or dropped, which fails the monitor. |
| `Ingress.IngressMonitor.Finish` | crates/oppen-hl/src/ws/ingress.rs:349-371 | Completion succeeds exactly when drained, healthy and with nothing outstanding; otherwise the monitor fails. |
| `Ingress.IngressMonitor.Admit` | crates/oppen-hl/src/ws/ingress.rs:121-142 | Refuses failed, completed, pending and changed monitors, in that order; otherwise takes a guard. |
| `FeedRuns.ObservationNeverReturns` | crates/oppen-hl/src/ws/ingress.rs:112-142 | Over any run, two equal observations of the bound monitor have no account frame between them. |
| `FeedRuns.GuardFreezesEvidence` | crates/oppen-hl/src/ws/ingress.rs:81-142 | From an admission to the release of its guard, over any steps in between, the session does not change and the monitor stays open and healthy and settles no frame. |
| `LiveCharts.LiveChart.constructor` | crates/oppen-core/src/live_chart.rs:124-152 | A new chart is empty and satisfies the invariant. |
| `LiveCharts.FoldRow` | crates/oppen-core/src/live_chart.rs:281-305 | The step-by-step update of a bar equals the fold the lemmas are about. |
| `LiveCharts.LiveChart.RaiseFloor` | crates/oppen-core/src/live_chart.rs:175-187 | The sliding floor, and exactly what it evicts. |
| `LiveCharts.LiveChart.Mark` | crates/oppen-core/src/live_chart.rs:306-325 | The marker follows the greatest `(time, tid)` and remembers disagreeing prices at one instant. |
| `LiveCharts.LiveChart.Row` | crates/oppen-core/src/live_chart.rs:203-338 | One row: every refusal in order, replay, conflict, capacity, overflow, acceptance. |
| `LiveCharts.LiveChart.ObserveTradeBatch` | crates/oppen-core/src/live_chart.rs:189-339 | The sorted batch loop, and the invariant kept. |
| `LiveCharts.LiveChart.ObserveWsCandle` | crates/oppen-core/src/live_chart.rs:375-406 | A websocket candle: skew and validation errors, stale rows, placement; invariant kept. |
| `LiveCharts.LiveChart.InterruptTape` | crates/oppen-core/src/live_chart.rs:408-413 | An interruption marks an unfrozen tape only. |
| `LiveCharts.LiveChart.FailObservation` | crates/oppen-core/src/live_chart.rs:417-429 | The first transport failure latches; later ones change nothing. |
| `LiveCharts.LiveChart.RequestHistory` | crates/oppen-core/src/live_chart.rs:431-437 | Each request supersedes the last. |
| `LiveCharts.LiveChart.CompleteHistory` | crates/oppen-core/src/live_chart.rs:439-501 | Fencing, failure, validation and the fill; invariant kept. |
| `LiveCharts.LiveChart.Merge` | crates/oppen-core/src/live_chart.rs:476-493 | The fill loop skips rows below the floor and rows a websocket candle holds. |
| `LiveCharts.Classified` | crates/oppen-core/src/live_chart.rs:535-543 | The loop over merged bars splits them into elapsed and the one current bucket. |
| `LiveCharts.LiveChart.Show` | crates/oppen-core/src/live_chart.rs:503-575 | A projection: clock, merge, classification, errors. |
| `ChartFreeze.RowFreezesExactly` | crates/oppen-core/src/live_chart.rs:203-263 | A live chart is frozen by a row if and only if the row is off the calendar, of another coin, without positive price and size, with a hash over 128 or more than 2 users; or, in time and in the window, it differs from the print held under its identity, 65,536 prints would be retained without it, or its bucket's volume would overflow. Want of room is told from the rest. |
| `ChartFreeze.VerdictExact` | crates/oppen-core/src/live_chart.rs:203-263 | Each verdict on a row, read off its fields and the retained prints. |
| `ChartFreeze.TakenRow` | crates/oppen-core/src/live_chart.rs:264-337 | What a print that is taken changes: floor, retained prints, marker, messages, receipt, status and revision, and nothing else. |
| `ChartFreeze.QuietRow` | crates/oppen-core/src/live_chart.rs:225-248 | What a row that is ahead of its receipt, below the floor or replayed leaves behind. |
| `ChartFreeze.FreezingRow` | crates/oppen-core/src/live_chart.rs:164-170 | A freezing row names its reason, leaves the marker in doubt and adds no print. |
| `ChartFreeze.StepFreezesExactly` | crates/oppen-core/src/live_chart.rs:189-339 | The calls that freeze a live chart: a transport failure, a batch over 65,536, or one with a freezing row; no other call does. |
| `ChartFreeze.RunStaysLiveExactly` | crates/oppen-core/src/live_chart.rs:157-171 | A run stays live if and only if no call meets its freezing condition in the state it finds. |
| `ChartFreeze.HonestFeedsNeverFreeze` | crates/oppen-core/src/live_chart.rs:189-339 | If all prints are well formed, each the only one of its identity, and all could be held at once, no order, batching, replay, candle, history, interruption or clock freezes the chart. |
| `ChartTape.FoldIsInsert` | crates/oppen-core/src/live_chart.rs:264-305 | Folding a new print into the bar of a set of prints gives the bar of the larger set, whatever order prints arrive in. |
| `ChartTape.TapeUnique` | crates/oppen-core/src/live_chart.rs:264-305 | The set of prints determines the bar, receipt time apart. |
| `ChartTape.RowKeepsInv` | crates/oppen-core/src/live_chart.rs:203-338 | Every row keeps the window bounded, every retained print in a bar, and every tape bar equal to the aggregate of the retained prints of its bucket. |
| `ChartRuns.StepKeepsInv` | crates/oppen-core/src/live_chart.rs:189-543 | Every call keeps that invariant and never lowers the floor. |
| `ChartOutcomes.NewExact` | crates/oppen-core/src/live_chart.rs:124-152 | A chart is made exactly for a symbol of 1 to 256 characters, and starts with nothing. |
| `ChartOutcomes.ValidationExact` | crates/oppen-core/src/live_chart.rs:341-373 | Validation accepts exactly at most 601 rows, each sound and on the grid, in rising order; stores each as delivered; and names the first kind of fault otherwise. |
| `ChartOutcomes.CandleExact` | crates/oppen-core/src/live_chart.rs:375-406 | A websocket candle is taken exactly when it is sound, on the grid, not more than 5 s ahead and not below the floor; it is stored with its own values, and every other outcome is named. |
| `ChartOutcomes.HistoryExact` | crates/oppen-core/src/live_chart.rs:439-472 | A history is honoured exactly when its ticket is current, its rows valid and the newest not more than 5 s ahead; a refusal names its reason and changes only the error. |
| `ChartOutcomes.HistoryFills` | crates/oppen-core/src/live_chart.rs:473-500 | An honoured history stores every row at or above the floor as delivered wherever no websocket candle is, and leaves the other buckets alone. |
| `ChartOutcomes.HistoryFailureExact` | crates/oppen-core/src/live_chart.rs:449-456 | A failed fetch is reported, cut to 512 characters, and changes nothing else. |
| `ChartOutcomes.InterruptionsExact` | crates/oppen-core/src/live_chart.rs:408-429 | What an interruption and the first transport failure change; later failures change nothing. |
| `ChartRuns.BackfillOnlyAdds` | crates/oppen-core/src/live_chart.rs:476-493 | History only adds rows at or above the floor or replaces rows that are not from the websocket. |
| `ChartOrder.SortedIsSorted` | crates/oppen-core/src/live_chart.rs:200-202 | A batch is processed in `(time, tid)` order and is a permutation of what was delivered. |
| `ChartOrder.RunReflects` | crates/oppen-core/src/live_chart.rs:175-501 | After any unfrozen run of any calls: the floor is 599 widths below the greatest bucket reached by a print or the venue, and exactly the prints delivered within the clock tolerance at or above it are retained. |
| `ChartOrder.OrderDoesNotMatter` | crates/oppen-core/src/live_chart.rs:175-501 | Two unfrozen runs of any calls that deliver the same prints within the clock tolerance and reach the same venue buckets, in any order, batching or replay, end with the same floor, prints and bars. |
| `ChartOrder.MarkerDoesNotDependOnOrder` | crates/oppen-core/src/live_chart.rs:306-333 | Over trades-only runs the marker shows the greatest retained print whatever the order; when no print precedes its own timestamp its doubt is the same too, set exactly when its instant has two prices. |
| `ChartProps.WindowIsBoundedAndOneWay` | crates/oppen-core/src/live_chart.rs:175-187 | Over every run the floor is aligned and never decreases, each map holds at most 600 buckets inside 600 widths, identities stay within the cap, and nothing lies below the floor. |
| `ChartProps.RevisionIsAChangeToken` | crates/oppen-core/src/live_chart.rs:154-156 | Over any calls and clocks revisions never decrease, and two projections with the same revision are identical. |
| `ChartProps.StepIsObserved` | crates/oppen-core/src/live_chart.rs:154-187 | Every call but a new request or a projection leaves requests and clock alone, and one that leaves the revision alone leaves the whole state alone. |
| `ChartProps.ClassDependsOnBucket` | crates/oppen-core/src/live_chart.rs:535-543 | What is closed and what is forming depends only on which bucket the clock is in. |
| `ChartProps.ClosedStaysClosed` | crates/oppen-core/src/live_chart.rs:503-543 | A bucket once projected closed stays closed under any clocks until the floor evicts it. |
| `ChartProps.ProjectionIsExact` | crates/oppen-core/src/live_chart.rs:503-543 | Closed exactly when the width has elapsed, at most one bucket forming, the venue bar shown whenever there is one, and a classification clock that never goes back. |
| `ChartOutcomes.ProjectionFields` | crates/oppen-core/src/live_chart.rs:503-575 | Every other field of a projection is the chart's own; errors are joined in order; the revision moves exactly when the classification bucket or the rollback does. |
| `ChartOutcomes.ShownFields` | crates/oppen-core/src/live_chart.rs:519-534 | The source, partial flag, ambiguity and receipt each bar is shown with. |
| `ChartOutcomes.InstantIsGreatestClock` | crates/oppen-core/src/live_chart.rs:503-515 | The instant a chart classifies by is the greatest clock it was ever shown at, no more. |
| `ChartProps.HistoryRetains` | crates/oppen-core/src/live_chart.rs:473-493 | History never replaces a websocket candle and loses no bar at or above the floor. |
| `ChartProps.StepRetains` | crates/oppen-core/src/live_chart.rs:189-501 | No call loses a bar at or above the new floor or demotes a websocket one. |
| `ChartProps.TicketHonouredExactlyWhenCurrent` | crates/oppen-core/src/live_chart.rs:431-452 | A ticket is honoured exactly when no later request was begun on that chart; a superseded or foreign one changes nothing. |
| `ChartProps.FreezeIsTerminal` | crates/oppen-core/src/live_chart.rs:157-171 | After a capacity, conflict, invalid-print or transport failure no call sequence adds a print, changes the status or marker price, or clears its doubt; bars leave only through the floor. |
| `ChartProps.VenueIgnoresTheTape` | crates/oppen-core/src/live_chart.rs:375-501 | Venue candles and history are accepted alike by a frozen and an unfrozen chart. |
| `ChartBars.ValidatedIsReal` | crates/oppen-core/src/live_chart.rs:341-373 | Every row validation lets through is one width wide with positive prices inside its extremes. |
| `ChartBars.EveryShownBarIsReal` | crates/oppen-core/src/live_chart.rs:189-575 | In every projection of every run each bar shown is a real bar of its bucket: malformed candles and trades never become or replace one. |

## Left out

- The candle store, alerts, journal and account tables: their rules over rows are simple maps beside these components.
- Decimal arithmetic: money is exact (`real`). Rounding, and overflow other than the tape's checked volume addition, are not modelled.
- Integer widths: times and counters are unbounded. Where the program saturates (revision, bucket arithmetic near the 64-bit limits, clock-skew addition) the model is the unsaturated operation; bar trade counts do saturate at 32 bits.
- Strings are sequences of characters, so length limits count characters rather than bytes; agent ids are ASCII either way.
- Keychain backend, entropy, the guardrail HMAC key, secret zeroing, redaction and expiry warnings; key-to-address derivation is an arbitrary function.
- Record encoding: a stored entry is a typed value, with one case for text that does not decode.
- Backend read failures: reads answer; writes and removals may fail at any call.
- The process-wide wallet lock: one operation runs at a time; loads, which take no lock, may interleave with anything.
- Gap rows and fill recording in `apply`, the ledger, the reconcile walk and the pump: only which events invalidate, tick or ask for a reconcile.
- Identities held as shared pointers are numbers handed out once each by a `TokenSource`, so components that compare identities share one.
- Mutex poisoning, and the queue and permits behind an event channel: a frame is a registration and, later, an acknowledged or dropped obligation.
- Chart messages are named cases rather than texts, the four reasons a candle row can be off its axis are one case, and prices are not rendered as decimal strings.
- The projected list of closed bars is a map from bucket to bar; the program returns it in bucket order.
- LiveCharts.LiveChart.constructor: requires a symbol `Chart.New` accepts, because a constructor cannot return an error; the refusal is in `Chart.New`.
- KeyRuns.RecordAndKeyAlwaysAgree: assumes no one edits a stored record behind the program's back, since an edited record may name any generation; the address, generation and revocation theorems allow edits.
- KeyRuns.LoadSurvivesRotations: the same, and the agent is not deleted between the two reads.
- ChartOrder.MarkerDoesNotDependOnOrder: for runs the venue does not move the floor in, because a venue bar may evict the print the marker shows; a print ahead of its receipt leaves doubt by design.
- Book.WalkWithinBandIff: for ladders with positive prices and sizes ordered away from the touch, which is what the venue serves; `Book.Take` and `Book.MaxNotionalWithin` are exact on every ladder.
- HTTP clients, signing, guardrails, volatility and funding formulas, state and market projections, desktop interface.
