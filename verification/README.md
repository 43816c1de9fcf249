# pktstats in Dafny

This is a model of the packet-statistics benchmark `pktstats`. Worker threads each
drain a queue of packets and fold every packet's length into one shared running
statistic. The statistic can be kept in four ways:

- under a mutex, as an incrementally updated average;
- with atomics, as a running sum;
- as a size-to-count histogram;
- as one partition per worker, reduced on read.

A sampling policy calls the configured read every `GetStatsFreq` updates.

The model has eight modules:

| module | file | models |
|---|---|---|
| `Stack` | `stack.dfy` | `pkg/queue/queue.go`: the bounded queue. Despite its name it is LIFO: `Dequeue` pops the last element queued. |
| `DpConfig` | `dpconfig.dfy` | The configuration part of `pkg/datapath/datapath.go`: `DatapathConfig`, `validateConfig`, `String` and the getters. |
| `Stats`, `StatsLemmas` | `stats.dfy`, `statslemmas.dfy` | `pkg/datapath/pktstats.go`: the context, the four update routines, `ObtainStats`, `Init`, `Reset` and the three reads, plus what they compute over a stream of packets. |
| `Datapath` | `datapath.dfy` | The driver in `pkg/datapath/datapath.go`: `populatePacketQueue`, `InitDatapath`, `GetNextPacket`, the `processPkt` drain loop and `RunDatapath`. |
| `Legacy` | `legacy.dfy` | The standalone variant in the repository root, `pktstats.go`: `PktStat`, its three updates, two reads and `runDatapath`'s budget and sampling arithmetic. |
| `Histogram` | `histogram.dfy` | The histogram shared by both variants. |
| `Sums`, `Results` | `sums.dfy`, `results.dfy` | Sums, means, Go's truncating division, `Option` and `Result`. |

Modelling choices:

- **Globals.** The package globals `ctx`, `dpCfg` and `pq` become an explicit
  `World` value.
- **Function references.** The configured update and read functions become
  tags. `None` stands for Go's `nil`. A tag always acts on the running
  context of the `World` (see Left out).
- **Packets.** A packet is represented by its length. The random generator is
  a parameter `gen(i, k)`: the length of worker `i`'s `k`-th packet. In the
  root variant the parameter `draws` holds the values `Intn(MAX_PKT_SIZE)`
  returns.
- **Workers.** Workers run one after another in worker order. Each update and
  read is one atomic step on an immutable context.
- **Integers.** `uint64` counters are unbounded naturals.
- **Go panics.** Wherever Go would panic, the model either has a `requires`
  or, for the reads, returns a `Result` whose failure names the panic.

Main results:

- `Datapath.InitThenRunCounts`: after `InitDatapath` and one `RunDatapath`,
  exactly `MaxThreads * (MaxPkts / MaxThreads)` packets are counted.
- `Datapath.StrategiesAgree`: the atomic, histogram and (guarded) partition
  strategies all report the truncated mean of every queued packet.
- `Datapath.InitThenRunSamples`: the sampling policy fires
  `total / GetStatsFreq` times; with `GetStatsFreq <= 0` it fires on every
  packet (`Datapath.InitThenRunSamplesEvery`).
- The mutex strategy does not report that mean. As written it loses the first
  packet and its read divides twice (see Findings). Even corrected, the
  incremental average truncates at every step. It then lies within the sizes'
  range and at most at the mean (`StatsLemmas.IntendedAverageBounded`), and it
  can fall below the truncated mean (`StatsLemmas.MutexIntendedDrifts`).

## Model

| member | source | states |
|---|---|---|
| Stack.Elements | pkg/queue/queue.go:7-11 | The stored packets are slots `0 .. current`, all set, in the order they were queued. |
| Stack.NewQueue | pkg/queue/queue.go:21-27 | A new queue stores nothing and has `max` slots (`Len` is `max`). It is full exactly when `max` is 0. |
| Stack.Queue | pkg/queue/queue.go:29-36 | Fails with `QueueMaxExceeded` exactly when the queue is full, and then leaves it unchanged. Otherwise it puts the element on top of the stored ones and keeps the capacity. |
| Stack.Dequeue | pkg/queue/queue.go:38-45 | Fails with `QueueIsEmpty` exactly when the queue is empty. Otherwise it returns the last element stored and removes it. The slots are not cleared. |
| Stack.IsEmpty | pkg/queue/queue.go:47-52 | On a valid queue, holds exactly when no element is stored. |
| Stack.IsFull | pkg/queue/queue.go:54-59 | On a valid queue, holds exactly when `max` elements are stored. |
| Stack.Len | pkg/queue/queue.go:61-63 | Reports the capacity `max`, not the number stored, which is never larger. |
| Stack.FullIffCapacityReached | pkg/queue/queue.go:47-59 | `IsFull` holds iff `max` elements are stored. `IsEmpty` holds iff none are. |
| Stack.PushThenPop | pkg/queue/queue.go:29-45 | Popping right after a push returns the pushed element and restores the stored contents: the queue is LIFO. |
| Stack.QueueAllFits | pkg/queue/queue.go:29-36 | Queueing elements that fit never fails, and they are stored after the old ones in order. |
| Stack.QueueAllOverflows | pkg/queue/queue.go:29-36 | Queueing more elements than there are free slots ends in `QueueMaxExceeded`. |
| Stack.FillUntilFull | pkg/queue/queue_test.go:20-22 | Queueing until full pushes exactly `max` elements: the first `max` supplied. |
| Stack.DrainUntilEmpty | pkg/queue/queue_test.go:24-30 | Dequeueing until empty returns the stored elements in reverse order and leaves the queue empty. |
| Histogram.Add | pkg/datapath/pktstats.go:53 | `smap[size]++` adds one to that size's count, leaves every other count alone, and adds the key if it is new. |
| Histogram.FoldRemove | pkg/datapath/pktstats.go:118-121 | The sums over the map do not depend on which key the iteration visits first. |
| Histogram.FoldAdd | pkg/datapath/pktstats.go:118-121 | After `smap[size]++` the folded sums change only through that size's entry. |
| Histogram.AddTotals | pkg/datapath/pktstats.go:118-121 | One `smap[size]++` adds 1 to `c` and `size` to `s`. |
| Histogram.TotalAtLeastSize | pkg/datapath/pktstats.go:118-122 | With only positive counts, `c` is at least the number of keys, so a non-empty map never divides by zero. |
| Histogram.OfSeq | pkg/datapath/pktstats.go:51-58 | The histogram of a stream of sizes has only positive counts. |
| Histogram.OfSeqIsMultiset | pkg/datapath/pktstats.go:51-58 | A stream's histogram is its multiset: each size's count is its number of occurrences, and the keys are exactly the sizes seen. |
| Histogram.OfSeqTotals | pkg/datapath/pktstats.go:118-121 | A stream's histogram has `c` = the number of sizes and `s` = their sum. |
| Histogram.HistMeanOfTotals | pkg/datapath/pktstats.go:109-122 | A histogram whose `c` and `s` are a stream's count and sum reads the stream's truncated mean. |
| Histogram.HistMeanIsMean | pkg/datapath/pktstats.go:105-127 | The map read of a stream's histogram equals the truncated mean of the stream. |
| Histogram.WeightedMean | pkg/datapath/pktstats.go:105-127 | The summing loop returns 0 on an empty map and otherwise `s / c` over all entries. |
| Histogram.ScenarioFiveFiveFiveFifteen | pkg/datapath/pktstats.go:118-122 | Sizes 5, 5, 5, 15 give the histogram `{5: 3, 15: 1}` and read 30 / 4 = 7. |
| DpConfig.ValidateConfig | pkg/datapath/datapath.go:78-95 | Accepts exactly the configurations that are non-nil, have a context type in 0..3, `MaxPkts > 1`, `MaxThreads >= 1` and both functions set. Each error names a check that failed, and every check before it passed: the checks run in the order nil, context type, `MaxPkts`, `MaxThreads`, functions. |
| DpConfig.ValidationBoundaries | pkg/datapath/datapath.go:82-90 | The boundaries: `MaxThreads` 1 with `MaxPkts` 2 is accepted; `MaxPkts` 1, `MaxThreads` 0 and context type 4 are each rejected with their own error. |
| DpConfig.CtxTypeString | pkg/datapath/datapath.go:65-67 | Type 0 is named "mutex", 1 "atomic", 2 "map" and 3 "concurrent". |
| DpConfig.CtxTypeStringInjective | pkg/datapath/datapath.go:65-67 | Distinct context types have distinct names. |
| DpConfig.PairedRead | pkg/datapath/pktstats_test.go:29-61 | The read the tests configure for each update: the partition read exactly for the partition update, the map read exactly for the map update, otherwise the stat read. |
| Stats.Reduce | pkg/datapath/pktstats.go:134-137 | Every partition's sum and count are included in the reduced sum and count. |
| Stats.ReduceReplace | pkg/datapath/pktstats.go:134-137 | Changing one partition changes the summed sum and count by exactly that partition's difference. |
| Stats.ReduceZero | pkg/datapath/pktstats.go:75 | Zeroed partitions reduce to zero sum and zero count. |
| Stats.MutexStep | pkg/datapath/pktstats.go:29-37 | As written: the count goes up by one. On the first packet the average becomes 0, since it is multiplied by the zero count. After that the step is the incremental-average formula. |
| Stats.MutexStepIntended | pkg/datapath/pktstats.go:34 | The incremental average counts one more packet, and a first packet's average is its own size. |
| Stats.MutexStepIntendedBounds | pkg/datapath/pktstats.go:34 | The new average times the new count is the old total plus the size, truncated: short of it by less than one count. |
| Stats.AtomicStep | pkg/datapath/pktstats.go:43-46 | `avgPktSize` grows by the size and `count` by one; the sample point stays. |
| Stats.MapStep | pkg/datapath/pktstats.go:51-55 | The size's histogram entry gains one, every other entry stays, the count gains one, and the partitions stay. |
| Stats.ConcurrentStep | pkg/datapath/pktstats.go:61-64 | Only worker `th`'s partition changes: it gains the size and one count, so the reduction gains them too. |
| Stats.Step | pkg/datapath/pktstats.go:28-66 | Every update routine counts exactly one packet, in the global stat or in a partition. Only the concurrent one touches the partitions, and it leaves the global stat and the histogram alone. |
| Stats.ObtainStats | pkg/datapath/pktstats.go:145-157 | Fires iff at least `GetStatsFreq` updates were counted since the last sample. When it fires it records the current count as the sample point and calls the read iff one is configured. Otherwise nothing changes. |
| Stats.Update | pkg/datapath/pktstats.go:28-66 | An update followed by sampling counts exactly one packet and keeps the number of partitions. |
| Stats.Feed | pkg/datapath/datapath.go:250-255 | Feeding a stream keeps the number of partitions and triggers at most one read per packet. |
| Stats.Init | pkg/datapath/pktstats.go:68-76 | A fresh context: zero stat, empty histogram, one zero partition per configured worker, nothing counted. |
| Stats.Reset | pkg/datapath/pktstats.go:78-88 | As written: zero stat and empty histogram, but the partitions are truncated to none. |
| Stats.ResetIntended | pkg/datapath/pktstats.go:78-88 | Zero stat and empty histogram, with the same number of partitions, all zero. |
| Stats.GetAveragePktSizeOf | pkg/datapath/pktstats.go:91-102 | Reads 0 when nothing was counted. Otherwise it reads `avgPktSize / count`, truncated. |
| Stats.GetAveragePktSizeMapOf | pkg/datapath/pktstats.go:105-127 | Reads 0 on an empty histogram. Otherwise it reads `s / c` over the histogram, truncated. |
| Stats.GetAveragePktSizeConcurrentOf | pkg/datapath/pktstats.go:130-143 | As written it panics in two cases: index out of range iff fewer partitions exist than configured workers, and divide by zero iff they exist but their counts sum to 0. Otherwise it reads the reduced sum over the reduced count. |
| Stats.GetAveragePktSizeConcurrentGuarded | pkg/datapath/pktstats.go:130-143 | The same read with a zero guard: it fails only on missing partitions, and reads 0 when nothing was counted. |
| StatsLemmas.FeedCounts | pkg/datapath/pktstats.go:28-66 | A stream of n packets adds exactly n to the total count, under every strategy. |
| StatsLemmas.FeedAppend | pkg/datapath/datapath.go:250-255 | Feeding `a` and then `b` is feeding `a + b`, and their read counts add up. |
| StatsLemmas.FeedAtomic | pkg/datapath/pktstats.go:43-48 | The atomic strategy adds the sizes' sum and number to the stat. |
| StatsLemmas.AtomicReadIsMean | pkg/datapath/pktstats.go:91-102 | From a fresh context, the atomic read is the truncated mean of the sizes fed. |
| StatsLemmas.MapUpdateKeepsTotal | pkg/datapath/pktstats.go:51-58 | A map update keeps the histogram's total equal to the count. |
| StatsLemmas.UpdateMap | pkg/datapath/pktstats.go:51-58 | One map update adds one sample of the size to the histogram and one to the count, and changes nothing else. |
| StatsLemmas.FeedMapEntries | pkg/datapath/pktstats.go:51-58 | The map strategy adds each size's number of occurrences to its entry, and the stream's length to the count. |
| StatsLemmas.FeedMapTotals | pkg/datapath/pktstats.go:51-58 | The map strategy adds the stream's length and sum to the histogram's totals. |
| StatsLemmas.FeedMap | pkg/datapath/pktstats.go:51-58 | Both of the above, with the average field and the partitions unchanged. |
| StatsLemmas.MapReadIsMean | pkg/datapath/pktstats.go:105-127 | From a fresh context, the histogram total equals the count, and the map read is the truncated mean of the sizes. |
| StatsLemmas.UpdateConcurrent | pkg/datapath/pktstats.go:61-66 | One concurrent update adds the size and one count to the reduction. Other partitions and the global stat do not change. |
| StatsLemmas.FeedConcurrent | pkg/datapath/pktstats.go:61-66 | Worker `th` feeding a stream adds its sum and length to the reduction. |
| StatsLemmas.ConcurrentNeverSamples | pkg/datapath/pktstats.go:145-151 | Sampling watches the global count, which the concurrent strategy never changes: with a positive frequency it never fires. |
| StatsLemmas.ConcurrentGuardedReadIsMean | pkg/datapath/pktstats.go:130-143 | From a fresh context, the guarded partition read is the truncated mean of the sizes. |
| StatsLemmas.GuardedReadOfTotals | pkg/datapath/pktstats.go:130-143 | Partitions that reduce to a stream's sum and length read that stream's mean. |
| StatsLemmas.ConcurrentReadIsMean | pkg/datapath/pktstats.go:130-143 | Once a packet was counted, the unguarded read succeeds with the same mean. |
| StatsLemmas.ConcurrentReadFreshPanics | pkg/datapath/pktstats.go:134-138 | On a fresh context the unguarded partition read divides by zero. |
| StatsLemmas.ConcurrentGuardedReadFreshIsZero | pkg/datapath/pktstats.go:134-138 | On a fresh context the guarded read returns 0. |
| StatsLemmas.MismatchedReadPanics | pkg/datapath/pktstats.go:134-157 | With the partition read configured for any other update and `GetStatsFreq <= 1`, the first update samples and the read divides by zero. |
| StatsLemmas.PartitionReadAfterUpdate | pkg/datapath/pktstats.go:61-66 | With the partition update, the partition read that sampling triggers always succeeds: the updating worker's partition was just counted. |
| StatsLemmas.UpdateKeepsAligned | pkg/datapath/pktstats.go:145-157 | With the sample point on a multiple of the frequency, one update fires a read exactly when the new count is such a multiple, and the point stays aligned. |
| StatsLemmas.FeedSamples | pkg/datapath/pktstats.go:145-157 | Over a stream, the number of reads is the number of multiples of the frequency the count passes. |
| StatsLemmas.SamplesFromInit | pkg/datapath/pktstats.go:145-157 | From a fresh context, n updates trigger `n / GetStatsFreq` reads. |
| StatsLemmas.SamplesEveryUpdate | pkg/datapath/pktstats.go:145-157 | With `GetStatsFreq <= 0`, which validation accepts, every update of any routine triggers a read. |
| StatsLemmas.FeedMutex | pkg/datapath/pktstats.go:29-40 | Feeding the mutex strategy folds its step over the stream. |
| StatsLemmas.MutexAgreesAfterFirst | pkg/datapath/pktstats.go:31-35 | Once a packet has been counted, the mutex strategy as written and as intended compute the same thing. |
| StatsLemmas.MutexQuirk | pkg/datapath/pktstats.go:31-32 | From zero, the code as written behaves exactly as if the first packet had size 0. |
| StatsLemmas.MutexFirstPacketDiscarded | pkg/datapath/pktstats.go:31-32 | After one packet of size 10 the average is 0 as written, and 10 as intended. |
| StatsLemmas.IntendedStepBounded | pkg/datapath/pktstats.go:34 | One intended step with a size in `[lo, hi]` keeps the average in `[lo, hi]`. |
| StatsLemmas.IntendedBoundedFrom | pkg/datapath/pktstats.go:34 | Over a stream, the intended average stays in `[lo, hi]`, and average times count never exceeds the true total. |
| StatsLemmas.IntendedAverageBounded | pkg/datapath/pktstats.go:34 | The intended running average of sizes in `[lo, hi]` lies in `[lo, hi]` and is at most the true mean. |
| StatsLemmas.MutexTenTwentyThirty | pkg/datapath/pktstats.go:29-36 | On 10, 20, 30 the mutex average is 16 as written and 20 as intended. |
| StatsLemmas.MutexIntendedDrifts | pkg/datapath/pktstats.go:34 | Even as intended, the truncating incremental average can drift below the mean: on 1, 2, 3, 3 it is 1 while the truncated mean is 2. |
| StatsLemmas.MutexReadDividesTwice | pkg/datapath/pktstats.go:91-97 | With the mutex strategy, `GetAveragePktSize` after 10, 20, 30 reads 5, although the mean is 20. |
| StatsLemmas.MutexIntendedReadScenario | pkg/datapath/pktstats.go:24-26 | Reading the intended mutex average as stored gives 20 after 10, 20, 30. |
| StatsLemmas.ResetBreaksConcurrent | pkg/datapath/pktstats.go:87 | After `Reset` the partition read is out of range, and no worker can make a concurrent update. |
| StatsLemmas.ResetIntendedIsFresh | pkg/datapath/pktstats.go:78-88 | The intended reset of a context sized for the configuration is exactly `Init`. |
| StatsLemmas.FeedIgnoresPartitions | pkg/datapath/pktstats.go:28-58 | The mutex, atomic and map strategies never look at the partitions. |
| StatsLemmas.ResetThenRunIsFresh | pkg/datapath/pktstats.go:78-88 | For those strategies, a run after `Reset` gives the same stat, histogram and reads as a run on a fresh context. |
| Datapath.CreateDatapathContext | pkg/datapath/datapath.go:69-72 | A new context has counted nothing and reads 0. The configuration and queues stay. |
| Datapath.Budget | pkg/datapath/datapath.go:142 | Each worker gets `MaxPkts / MaxThreads` packets: the largest m with `m * MaxThreads <= MaxPkts`. |
| Datapath.BudgetTenOnFour | pkg/datapath/datapath.go:142 | Ten packets on four workers give two each. |
| Datapath.BudgetBounds | pkg/datapath/datapath.go:142 | Fewer than `MaxThreads` packets of the budget are dropped. |
| Datapath.FillQueue | pkg/datapath/datapath.go:144-151 | A worker's fresh queue takes all its packets without error, in generated order, and ends full. |
| Datapath.BuildQueues | pkg/datapath/datapath.go:141-154 | Builds one full, valid queue per worker, holding that worker's packets, with no error. |
| Datapath.PopulatePacketQueue | pkg/datapath/datapath.go:134-156 | Fails, changing nothing, iff the context or configuration is missing. Otherwise each configured worker gets one full queue of its budget of packets. |
| Datapath.InitDatapath | pkg/datapath/datapath.go:161-185 | Rejects, changing nothing and reporting `validateConfig`'s reason, iff the configuration is invalid. Otherwise it installs the configuration, resets the context sized for it, and populates the queues. |
| Datapath.InitInstallsConfig | pkg/datapath/datapath.go:97-129 | After a successful init the getters report the new configuration and there are `MaxThreads` partitions and queues. After a failed one they report what was there before, which is 0 and nil if nothing was. |
| Datapath.GetNextPacket | pkg/datapath/datapath.go:190-199 | On an empty queue it returns nothing and changes nothing. Otherwise it returns the next pending packet (the last one queued), leaves the rest pending, and touches no other queue. |
| Datapath.PendingAfterPop | pkg/queue/queue.go:38-45 | A pop returns the first packet in pop order and leaves the rest in order. |
| Datapath.Drain | pkg/datapath/datapath.go:250 | A drained queue is valid and empty, has nothing pending, and keeps its slots. |
| Datapath.ProcessNext | pkg/datapath/datapath.go:250-255 | One iteration pops one packet and feeds it. What is left to feed accounts for the rest, and only this worker's queue changes. |
| Datapath.ProcessPkt | pkg/datapath/datapath.go:247-256 | A worker ends with its queue drained and the context as if its pending packets were fed in pop order. It reports the reads this triggered. |
| Datapath.RunWorkers | pkg/datapath/datapath.go:259-263 | A sequential run keeps the number of partitions. |
| Datapath.DrainNext | pkg/datapath/datapath.go:259-263 | Draining worker `th` after workers `0 .. th - 1` extends the run by one worker. |
| Datapath.DrainAll | pkg/datapath/datapath.go:259-263 | Workers `0 .. n - 1` drain their queues in turn. The result is the sequential run over their pending packets, and those queues are drained while the rest stay. |
| Datapath.RunDatapath | pkg/datapath/datapath.go:235-264 | Runs every configured worker over its queue and leaves the first `MaxThreads` queues drained. |
| Datapath.FeedAnyWorker | pkg/datapath/pktstats.go:29-58 | The mutex, atomic and map strategies ignore the worker index. |
| Datapath.RunIsFeed | pkg/datapath/datapath.go:259-263 | For those strategies, a run over all workers is one stream of all their packets. |
| Datapath.RunConcurrent | pkg/datapath/pktstats.go:61-66 | A concurrent run adds the sum and number of all processed packets to the reduction, and leaves the global average and count. |
| Datapath.RunCounts | pkg/datapath/datapath.go:247-263 | A run counts every processed packet exactly once. |
| Datapath.RunOnDrainedIsNoop | pkg/datapath/datapath.go:250 | Workers with empty queues change nothing and trigger no read. |
| Datapath.GeneratedCount | pkg/datapath/datapath.go:142-151 | `MaxThreads * Budget` packets are generated in all. |
| Datapath.PopulatedWork | pkg/datapath/datapath.go:143-151 | Freshly populated queues hold exactly the generated packets, each worker's in reverse order. |
| Datapath.InitThenRunIsRunOfGenerated | pkg/datapath/datapath.go:161-185 | After a successful init, `RunDatapath` can run. It is the configured strategy run from a fresh context over the generated packets. |
| Datapath.InitThenRunCounts | pkg/datapath/datapath.go:142 | After init and one run, `MaxThreads * (MaxPkts / MaxThreads)` packets are counted: at most `MaxPkts`, and more than `MaxPkts - MaxThreads`. |
| Datapath.WithUpdate | pkg/datapath/pktstats_test.go:29-61 | Installs an update routine with the read the tests pair with it, so the read cannot panic. Everything else stays. |
| Datapath.AtomicRunReadsMean | pkg/datapath/pktstats.go:91-102 | After init and a run of the atomic strategy, the read is the mean of all queued packets. |
| Datapath.MapRunReadsMean | pkg/datapath/pktstats.go:105-127 | After init and a run of the map strategy, the map read is the mean of all queued packets. |
| Datapath.ConcurrentRunReadsMean | pkg/datapath/pktstats.go:130-143 | After init and a run of the concurrent strategy, the guarded read is the mean of all queued packets. |
| Datapath.StrategiesAgree | pkg/datapath/pktstats.go:91-143 | The atomic, map and guarded concurrent strategies report the same average after the same run. |
| Datapath.InitThenRunSamples | pkg/datapath/pktstats.go:145-157 | After init, a run of a non-partitioned strategy with frequency `f >= 1` triggers `MaxThreads * Budget / f` reads. |
| Datapath.RunSamplesEvery | pkg/datapath/pktstats.go:145-157 | With `GetStatsFreq <= 0`, a run reads once per packet processed. |
| Datapath.InitThenRunSamplesEvery | pkg/datapath/pktstats.go:145-157 | After init with `GetStatsFreq <= 0`, a run makes `MaxThreads * Budget` reads. |
| Datapath.RunTwice | pkg/datapath/datapath.go:235-264 | A second `RunDatapath` right after the first changes nothing and triggers no read. |
| Legacy.UpdateStatWithLock | pktstats.go:40-45 | Adds the size to the sum and one to the count, and leaves the map. |
| Legacy.UpdateStatAtomic | pktstats.go:48-51 | Adds the size to the sum and one to the count, and leaves the map. |
| Legacy.UpdateStatWithMap | pktstats.go:54-58 | The size's entry gains one and every other entry stays. The sum and the count are not touched. |
| Legacy.ClearStatMap | pktstats.go:60-66 | Leaves the map empty, with total 0, and keeps the sum and the count. |
| Legacy.GetAveragePktSize | pktstats.go:69-78 | Reads 0 when nothing was counted. Otherwise it reads the sum over the count, truncated. |
| Legacy.GetAveragePktSizeUsingMap | pktstats.go:80-101 | Reads 0 on an empty map. Otherwise it reads `s / c` over the map, truncated. |
| Legacy.ClearThenRead | pktstats.go:60-83 | After `ClearStatMap` the map read returns 0. |
| Legacy.Apply | pktstats.go:124 | One call of `updateF`: the lock and atomic routines add the size and one count and keep the map. The map routine adds one sample of the size and keeps the sum and the count. |
| Legacy.ApplyAll | pktstats.go:123-128 | A worker's calls of `updateF` over a stream: the sum routines count every size, and the map routine leaves the sum and the count alone. |
| Legacy.LockAndAtomicAgree | pktstats.go:40-51 | The locked and atomic updates compute the same state on every stream. |
| Legacy.ApplyAllSums | pktstats.go:40-51 | The sum updates add the stream's sum and length and leave the map. |
| Legacy.ApplyAllMap | pktstats.go:54-58 | The map update adds the stream's length and sum to the map's totals, and leaves the sum and the count. |
| Legacy.SumReadIsMean | pktstats.go:69-78 | From zero, the sum read after a stream is the stream's truncated mean. |
| Legacy.MapReadIsMean | pktstats.go:80-101 | From an empty map, the map read after a stream is the stream's truncated mean. |
| Legacy.Budget | pktstats.go:107-110 | The per-worker budget is at least 1. Below two packets per worker it is 1; otherwise it is the truncated `maxPkts / maxThreads`. |
| Legacy.BudgetExamples | pktstats.go:107-110 | 10000 packets on 10 workers give 1000 each. 5 and -5 packets give 1, and 7 on 3 give 2. |
| Legacy.SampleCount | pktstats.go:123-127 | The number of iterations `p < b` with `p % 10 == 0` is the least k with `10 * k >= b`. |
| Legacy.SizesOf | pktstats.go:124 | Each drawn size is `Intn(MAX_PKT_SIZE) + 1`, so it lies in `[1, 32766]`. |
| Legacy.SampleStep | pktstats.go:125 | Iteration p adds a read exactly when `p % 10 == 0`. |
| Legacy.RunWorker | pktstats.go:123-128 | A worker feeds its first `budget` drawn sizes in order and reads `ceil(budget / 10)` times. |
| Legacy.RunWorkers | pktstats.go:116-130 | Workers feed their sizes one after another, each reading `ceil(budget / 10)` times. |
| Legacy.RunDatapath | pktstats.go:106-132 | `runDatapath` feeds `maxThreads * budget` drawn sizes and makes `maxThreads * ceil(budget / 10)` reads. |
| Legacy.RunTotals | pktstats.go:106-132 | From zero, the sum strategies count `budget * maxThreads` packets, with a sum between the count and 32766 times the count. |
| Legacy.FedWithin | pktstats.go:124 | Every size a run feeds lies in `[1, MAX_PKT_SIZE]`. |

## Left out

- Concurrency. Goroutines, `sync.WaitGroup`, mutexes and atomics are not
  modelled. Workers run sequentially in worker order, and every update and
  read is one indivisible step. Interleavings of concurrent updates are not
  covered: the lost-update behaviour the mutex and atomics guard against, and
  reads that overlap updates.
- `uint64` wrap-around. Counters and sums are unbounded. `Legacy.RunTotals`
  bounds the root variant's sum by 32766 times the count, so it stays below
  2^64 for fewer than 2^49 packets.
- The packet type and its generator (`pkg/pkt/pkt.go`). Only a packet's length
  is used, supplied by the parameter `gen`. The same holds for `rand`, `time`
  and logging, including `duration`, `track` and the `debug` printing.
- `cmd/server` is not part of this model.
- `PreprocessPacket` and `PostprocessPacket` return nil and do nothing, so
  they are omitted from the drain loop.
- `GetRunningContext`, `GetCount` and `GetLastUpdateCount` are plain field
  reads, used directly.
- Stats.ReadMutexAverage: models `GetAveragePacketSize`
  (pkg/datapath/pktstats.go:24-26), a plain field read with no contract of its
  own. What it returns after an intended mutex run is stated by
  `StatsLemmas.MutexIntendedReadScenario` and
  `StatsLemmas.IntendedAverageBounded`.
- Stats.ObtainStats: the configured read's return value is discarded in Go,
  so only whether the read is called is modelled. A panic inside that read is
  not modelled. A read can panic when `validateConfig` (datapath.go:78-95)
  accepts the partition read paired with another update routine: then the
  first sample divides by zero (`StatsLemmas.MismatchedReadPanics`).
- Datapath.RunDatapath, Datapath.InitThenRunIsRunOfGenerated,
  Datapath.InitThenRunCounts, Datapath.InitThenRunSamples,
  Datapath.InitThenRunSamplesEvery, Datapath.RunTwice: require
  `DpConfig.ReadMatchesUpdate`, that the partition read is configured only
  with the partition update. Go panics for the other pairings as soon as
  sampling fires, and the model does not represent a run that panics. The
  requirement is stricter than needed when sampling never fires, for example
  with a frequency above the number of packets.
- Datapath.StrategiesAgree, Datapath.AtomicRunReadsMean,
  Datapath.MapRunReadsMean, Datapath.ConcurrentRunReadsMean: they cover the
  configurations pkg/datapath/pktstats_test.go:29-61 builds, because
  `Datapath.WithUpdate` installs the read paired with the update.
- Method values bound to a receiver. In Go the configured functions are
  method values bound to one `DatapathContext`, for example
  `ctxTest.UpdateStatsMutex` in pkg/datapath/pktstats_test.go:26-61. After a
  later `CreateDatapathContext` they keep updating the old object, while the
  global `ctx` points to the new one. The model always applies them to the
  `World`'s current context, so it assumes the functions are bound to the
  running context.
- Datapath.CreateDatapathContext: Go's `&DatapathContext{}` has a nil `smap`
  and no partitions, so `UpdateStatsMap` panics on it until `Init` runs. The
  model's new context has an empty histogram; every run lemma starts after
  `InitDatapath`, which calls `Init`.
- DpConfig.GetCtxType, DpConfig.GetStatsFreq, DpConfig.GetStatsFn,
  DpConfig.GetMaxThreads, DpConfig.GetMaxPkts: no contract of their own.
  What they return is stated by `Datapath.InitInstallsConfig`.
- The `QueueFailed` error of `populatePacketQueue` is kept for its branch but
  never happens: `NewQueue` never returns nil and each queue is sized to its
  packets (`Datapath.FillQueue`).
- Go panics become preconditions:
  - `InitDatapath` without a context;
  - `GetNextPacket` on a worker without a queue;
  - a concurrent update on a missing partition;
  - root `runDatapath` with `maxThreads < 1` (division by zero, or a negative
    `WaitGroup` count).
- Root variant's nil map. A zero `PktStat` has a nil map, which reads like
  the empty map here. `UpdateStatWithMap` on a map that was never made panics
  in Go; that panic is not modelled.
- Legacy.GetAveragePktSizeUsingMap, Stats.GetAveragePktSizeMapOf: both
  require that a non-empty histogram has a positive total. Every histogram
  these routines build satisfies this (`StatsLemmas.MapReadIsMean`,
  `Legacy.MapReadIsMean`). Go would divide by zero otherwise.
- The update pipeline (`Stats.Step`, and through it the `Datapath` runs) uses
  the code as written, including the findings below. The corrected
  definitions are proved separately:
  - The partition agreement in `Datapath.StrategiesAgree` uses the guarded
    read.
  - The mutex strategy is left out of the run-level agreement. As written it
    does not report the mean. As intended it is only bounded by the mean
    (`StatsLemmas.IntendedAverageBounded`, `StatsLemmas.MutexIntendedDrifts`).

## Findings

| source | as written | input that shows it | evidently intended | confidence | as-written member | corrected member |
|---|---|---|---|---|---|---|
| pkg/datapath/pktstats.go:31-32 | On the first packet the mutex update multiplies the average by the zero count. The first packet's size is lost. | Sizes 10, 20, 30: the average becomes 0, then 10, then 16. | Use `(avg * count + size) / (count + 1)` on every packet, giving 10, 15, 20. That average stays within the sizes' range and at most the mean. It is not the mean itself: truncation can drift below it (`StatsLemmas.MutexIntendedDrifts`). | high, not executed | StatsLemmas.MutexFirstPacketDiscarded | StatsLemmas.IntendedAverageBounded |
| pkg/datapath/pktstats.go:91-97 | `GetAveragePktSize` divides `avgPktSize` by `count` for every strategy. Under the mutex strategy `avgPktSize` already holds an average, so it is divided by the count a second time. | Sizes 10, 20, 30 under the mutex strategy read 16 / 3 = 5. | Under the mutex strategy, read the stored average: 20 with the first-packet fix. | medium, not executed | StatsLemmas.MutexReadDividesTwice | StatsLemmas.MutexIntendedReadScenario |
| pkg/datapath/pktstats.go:134-138 | The partition read divides by the summed count with no zero guard, unlike the other two reads. | A read right after `Init`, with all partitions zero, divides by zero. | Return 0 when nothing was counted, as the other reads do. | high, not executed | StatsLemmas.ConcurrentReadFreshPanics | StatsLemmas.ConcurrentGuardedReadFreshIsZero |
| pkg/datapath/pktstats.go:87 | `Reset` truncates the partitions to length zero instead of zeroing them. | After `Reset` with `MaxThreads >= 1`, the partition read and every concurrent update index past the end. | Keep one zeroed partition per worker, as `Init` does. | high, not executed | StatsLemmas.ResetBreaksConcurrent | StatsLemmas.ResetIntendedIsFresh |

The third row has further corrected members:
`StatsLemmas.ConcurrentGuardedReadIsMean` and `Datapath.ConcurrentRunReadsMean`
prove that the guarded read is the mean after any run.
