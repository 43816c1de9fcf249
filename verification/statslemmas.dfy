/** Properties of the statistics strategies of pkg/datapath/pktstats.go: what
    each read returns after a sequence of updates, how sampling paces itself,
    and where the code departs from its evident intent. */
module StatsLemmas {
  import opened Results
  import opened Sums
  import opened Histogram
  import opened DpConfig
  import opened Stats

  // ---------------------------------------------------------------------
  // Any strategy

  /** Every update counts exactly one packet, in the global stat or in a
      partition. */
  lemma {:induction false} FeedCounts(ctx: Context, cfg: Option<Config>, fn: UpdateFn, th: int, sizes: seq<nat>)
    requires CanUpdate(ctx, fn, th)
    ensures TotalCount(Feed(ctx, cfg, fn, th, sizes).0) == TotalCount(ctx) + |sizes|
    decreases |sizes|
  {
    if |sizes| > 0 {
      FeedCounts(Update(ctx, cfg, fn, th, sizes[0]).0, cfg, fn, th, sizes[1..]);
    }
  }

  /** Feeding `a` and then `b` is feeding `a + b`; the reads add up. */
  lemma {:induction false} FeedAppend(ctx: Context, cfg: Option<Config>, fn: UpdateFn, th: int, a: seq<nat>, b: seq<nat>)
    requires CanUpdate(ctx, fn, th)
    ensures Feed(ctx, cfg, fn, th, a + b).0 == Feed(Feed(ctx, cfg, fn, th, a).0, cfg, fn, th, b).0
    ensures Feed(ctx, cfg, fn, th, a + b).1 == Feed(ctx, cfg, fn, th, a).1 + Feed(Feed(ctx, cfg, fn, th, a).0, cfg, fn, th, b).1
    decreases |a|
  {
    if |a| == 0 {
      assert a + b == b;
    } else {
      var u := Update(ctx, cfg, fn, th, a[0]);
      var ab := a + b;
      assert ab[0] == a[0] && ab[1..] == a[1..] + b;
      FeedAppend(u.0, cfg, fn, th, a[1..], b);
    }
  }

  // ---------------------------------------------------------------------
  // Atomic: a running sum and a count

  /** Feeding sizes to the atomic strategy adds their sum and their number,
      and touches neither the histogram nor the partitions. */
  lemma {:induction false} FeedAtomic(ctx: Context, cfg: Option<Config>, th: int, sizes: seq<nat>)
    ensures var r := Feed(ctx, cfg, UpdateStatsAtomic, th, sizes).0;
            && r.stat.avgPktSize == ctx.stat.avgPktSize + Sum(sizes)
            && r.stat.count == ctx.stat.count + |sizes|
            && r.smap == ctx.smap && r.cstat == ctx.cstat
    decreases |sizes|
  {
    if |sizes| > 0 {
      FeedAtomic(Update(ctx, cfg, UpdateStatsAtomic, th, sizes[0]).0, cfg, th, sizes[1..]);
      SumCons(sizes);
    }
  }

  /** From a fresh context the atomic read is the truncated mean of the sizes. */
  lemma AtomicReadIsMean(cfg: Option<Config>, th: int, sizes: seq<nat>)
    requires GetMaxThreads(cfg) >= 0
    ensures GetAveragePktSizeOf(Feed(Init(cfg), cfg, UpdateStatsAtomic, th, sizes).0) == Mean(sizes)
  {
    FeedAtomic(Init(cfg), cfg, th, sizes);
  }

  // ---------------------------------------------------------------------
  // Map: a histogram

  /** Each map update keeps the histogram's total equal to the count. */
  lemma MapUpdateKeepsTotal(ctx: Context, cfg: Option<Config>, th: int, size: nat)
    requires Total(ctx.smap) == ctx.stat.count
    ensures var r := Update(ctx, cfg, UpdateStatsMap, th, size).0;
            Total(r.smap) == r.stat.count
  {
    AddTotals(ctx.smap, size);
  }

  /** One map update: the size's entry gains one, the totals gain one
      sample of the size, the count gains one. */
  lemma UpdateMap(ctx: Context, cfg: Option<Config>, th: int, size: nat)
    ensures var r := Update(ctx, cfg, UpdateStatsMap, th, size).0;
            && r.smap == Add(ctx.smap, size)
            && Total(r.smap) == Total(ctx.smap) + 1
            && Weighted(r.smap) == Weighted(ctx.smap) + size
            && r.stat.count == ctx.stat.count + 1
            && r.stat.avgPktSize == ctx.stat.avgPktSize
            && r.cstat == ctx.cstat
  {
    AddTotals(ctx.smap, size);
  }

  /** Feeding sizes to the map strategy adds each size's occurrences to its
      entry and leaves the average field and the partitions alone. */
  lemma {:induction false} FeedMapEntries(ctx: Context, cfg: Option<Config>, th: int, sizes: seq<nat>)
    ensures var r := Feed(ctx, cfg, UpdateStatsMap, th, sizes).0;
            && (forall k :: Get(r.smap, k) == Get(ctx.smap, k) + multiset(sizes)[k])
            && r.stat.count == ctx.stat.count + |sizes|
            && r.stat.avgPktSize == ctx.stat.avgPktSize
            && r.cstat == ctx.cstat
    decreases |sizes|
  {
    if |sizes| > 0 {
      var u := Update(ctx, cfg, UpdateStatsMap, th, sizes[0]).0;
      assert u.smap == Add(ctx.smap, sizes[0]);
      FeedMapEntries(u, cfg, th, sizes[1..]);
      assert sizes == [sizes[0]] + sizes[1..];
      assert multiset(sizes) == multiset{sizes[0]} + multiset(sizes[1..]);
    }
  }

  /** Feeding sizes to the map strategy adds their number and sum to the
      histogram's totals. */
  lemma {:induction false} FeedMapTotals(ctx: Context, cfg: Option<Config>, th: int, sizes: seq<nat>)
    ensures var r := Feed(ctx, cfg, UpdateStatsMap, th, sizes).0;
            && Total(r.smap) == Total(ctx.smap) + |sizes|
            && Weighted(r.smap) == Weighted(ctx.smap) + Sum(sizes)
    decreases |sizes|
  {
    if |sizes| > 0 {
      UpdateMap(ctx, cfg, th, sizes[0]);
      FeedMapTotals(Update(ctx, cfg, UpdateStatsMap, th, sizes[0]).0, cfg, th, sizes[1..]);
      SumCons(sizes);
    }
  }

  /** Feeding sizes to the map strategy adds each size's occurrences to its
      entry, and the number and sum of the sizes to the histogram's totals. */
  lemma FeedMap(ctx: Context, cfg: Option<Config>, th: int, sizes: seq<nat>)
    ensures var r := Feed(ctx, cfg, UpdateStatsMap, th, sizes).0;
            && (forall k :: Get(r.smap, k) == Get(ctx.smap, k) + multiset(sizes)[k])
            && Total(r.smap) == Total(ctx.smap) + |sizes|
            && Weighted(r.smap) == Weighted(ctx.smap) + Sum(sizes)
            && r.stat.count == ctx.stat.count + |sizes|
            && r.stat.avgPktSize == ctx.stat.avgPktSize
            && r.cstat == ctx.cstat
  {
    FeedMapEntries(ctx, cfg, th, sizes);
    FeedMapTotals(ctx, cfg, th, sizes);
  }

  /** From a fresh context the sum of the histogram's counts equals the
      update count, and its weighted mean is the mean of the sizes. */
  lemma MapReadIsMean(cfg: Option<Config>, th: int, sizes: seq<nat>)
    requires GetMaxThreads(cfg) >= 0
    ensures var r := Feed(Init(cfg), cfg, UpdateStatsMap, th, sizes).0;
            && Total(r.smap) == r.stat.count
            && (|r.smap| == 0 || Total(r.smap) > 0)
            && HistMean(r.smap) == Mean(sizes)
  {
    var c0 := Init(cfg);
    var r := Feed(c0, cfg, UpdateStatsMap, th, sizes).0;
    FeedMapEntries(c0, cfg, th, sizes);
    FeedMapTotals(c0, cfg, th, sizes);
    assert Total(c0.smap) == 0 && Weighted(c0.smap) == 0;
    if |sizes| == 0 {
      assert r.smap == c0.smap;
    }
    HistMeanOfTotals(r.smap, sizes);
  }

  // ---------------------------------------------------------------------
  // Concurrent: one partition per worker

  /** One concurrent update: the partition reduction gains the size and one
      count, other partitions and the global average and count stay. */
  lemma UpdateConcurrent(ctx: Context, cfg: Option<Config>, th: int, size: nat)
    requires 0 <= th < |ctx.cstat|
    ensures var r := Update(ctx, cfg, UpdateStatsAtomicConcurrent, th, size).0;
            && Reduce(r.cstat) == (Reduce(ctx.cstat).0 + size, Reduce(ctx.cstat).1 + 1)
            && |r.cstat| == |ctx.cstat|
            && (forall i :: 0 <= i < |ctx.cstat| && i != th ==> r.cstat[i] == ctx.cstat[i])
            && r.stat.avgPktSize == ctx.stat.avgPktSize && r.stat.count == ctx.stat.count
            && r.smap == ctx.smap
  {
  }

  /** Feeding sizes through worker `th`'s partition adds their sum and number
      to the reduction and leaves every other partition and the global stat
      alone. */
  lemma {:induction false} FeedConcurrent(ctx: Context, cfg: Option<Config>, th: int, sizes: seq<nat>)
    requires 0 <= th < |ctx.cstat|
    ensures var r := Feed(ctx, cfg, UpdateStatsAtomicConcurrent, th, sizes).0;
            && Reduce(r.cstat) == (Reduce(ctx.cstat).0 + Sum(sizes), Reduce(ctx.cstat).1 + |sizes|)
            && (forall i :: 0 <= i < |ctx.cstat| && i != th ==> r.cstat[i] == ctx.cstat[i])
            && r.stat.avgPktSize == ctx.stat.avgPktSize && r.stat.count == ctx.stat.count
            && r.smap == ctx.smap
    decreases |sizes|
  {
    if |sizes| > 0 {
      UpdateConcurrent(ctx, cfg, th, sizes[0]);
      FeedConcurrent(Update(ctx, cfg, UpdateStatsAtomicConcurrent, th, sizes[0]).0, cfg, th, sizes[1..]);
      SumCons(sizes);
    }
  }

  /** Sampling compares the global count, which the concurrent strategy
      never raises: while the sampling frequency exceeds the gap, no read is
      ever triggered and the global stat stays as it was. */
  lemma {:induction false} ConcurrentNeverSamples(ctx: Context, cfg: Option<Config>, th: int, sizes: seq<nat>)
    requires 0 <= th < |ctx.cstat|
    requires ctx.stat.count - ctx.stat.lastUpdateCount < GetStatsFreq(cfg)
    ensures Feed(ctx, cfg, UpdateStatsAtomicConcurrent, th, sizes).1 == 0
    ensures Feed(ctx, cfg, UpdateStatsAtomicConcurrent, th, sizes).0.stat == ctx.stat
    decreases |sizes|
  {
    if |sizes| > 0 {
      ConcurrentNeverSamples(Update(ctx, cfg, UpdateStatsAtomicConcurrent, th, sizes[0]).0, cfg, th, sizes[1..]);
    }
  }

  /** From a fresh context the guarded partition read is the mean of the sizes. */
  lemma ConcurrentGuardedReadIsMean(cfg: Option<Config>, th: int, sizes: seq<nat>)
    requires 0 <= th < GetMaxThreads(cfg)
    ensures GetAveragePktSizeConcurrentGuarded(Feed(Init(cfg), cfg, UpdateStatsAtomicConcurrent, th, sizes).0, cfg)
            == Success(Mean(sizes))
  {
    var c0 := Init(cfg);
    var r := Feed(c0, cfg, UpdateStatsAtomicConcurrent, th, sizes).0;
    FeedConcurrent(c0, cfg, th, sizes);
    GuardedReadOfTotals(r, cfg, sizes);
  }

  /** The guarded read over partitions whose reduction holds the sum and
      number of `sizes` is their truncated mean. */
  lemma GuardedReadOfTotals(ctx: Context, cfg: Option<Config>, sizes: seq<nat>)
    requires |ctx.cstat| == GetMaxThreads(cfg)
    requires Reduce(ctx.cstat).0 == Sum(sizes) && Reduce(ctx.cstat).1 == |sizes|
    ensures GetAveragePktSizeConcurrentGuarded(ctx, cfg) == Success(Mean(sizes))
  {
    assert ctx.cstat[..GetMaxThreads(cfg)] == ctx.cstat;
  }

  /** The unguarded read agrees once at least one packet was counted. */
  lemma ConcurrentReadIsMean(cfg: Option<Config>, th: int, sizes: seq<nat>)
    requires 0 <= th < GetMaxThreads(cfg) && |sizes| > 0
    ensures GetAveragePktSizeConcurrentOf(Feed(Init(cfg), cfg, UpdateStatsAtomicConcurrent, th, sizes).0, cfg)
            == Success(Mean(sizes))
  {
    ConcurrentGuardedReadIsMean(cfg, th, sizes);
    FeedConcurrent(Init(cfg), cfg, th, sizes);
    var r := Feed(Init(cfg), cfg, UpdateStatsAtomicConcurrent, th, sizes).0;
    assert r.cstat[..GetMaxThreads(cfg)] == r.cstat;
  }

  /** Finding, as written: on a fresh context the partition read divides by
      a zero count. */
  lemma ConcurrentReadFreshPanics(cfg: Option<Config>)
    requires GetMaxThreads(cfg) >= 0
    ensures GetAveragePktSizeConcurrentOf(Init(cfg), cfg) == Failure(DivideByZero)
  {
    assert Init(cfg).cstat[..GetMaxThreads(cfg)] == Init(cfg).cstat;
  }

  /** Finding, corrected: the guarded read of a fresh context is zero. */
  lemma ConcurrentGuardedReadFreshIsZero(cfg: Option<Config>)
    requires GetMaxThreads(cfg) >= 0
    ensures GetAveragePktSizeConcurrentGuarded(Init(cfg), cfg) == Success(0)
  {
    assert Init(cfg).cstat[..GetMaxThreads(cfg)] == Init(cfg).cstat;
  }

  /** A configuration may pair the partition read with another update
      routine. That routine never raises the partition counts, so as soon as
      sampling fires, which with `GetStatsFreq() <= 1` is on the first
      update, the read divides by zero. */
  lemma MismatchedReadPanics(cfg: Option<Config>, fn: UpdateFn, size: nat)
    requires !fn.UpdateStatsAtomicConcurrent? && GetMaxThreads(cfg) >= 0
    requires GetStatsFn(cfg) == Some(GetAveragePktSizeConcurrent) && GetStatsFreq(cfg) <= 1
    ensures Update(Init(cfg), cfg, fn, 0, size).1
    ensures GetAveragePktSizeConcurrentOf(Update(Init(cfg), cfg, fn, 0, size).0, cfg) == Failure(DivideByZero)
  {
    var r := Update(Init(cfg), cfg, fn, 0, size).0;
    assert r.cstat == Init(cfg).cstat;
    assert r.cstat[..GetMaxThreads(cfg)] == r.cstat;
  }

  /** Paired with its own update routine, the partition read that sampling
      triggers always succeeds: the updating worker's partition has just
      been counted. */
  lemma PartitionReadAfterUpdate(ctx: Context, cfg: Option<Config>, th: int, size: nat)
    requires 0 <= th < GetMaxThreads(cfg) <= |ctx.cstat|
    ensures GetAveragePktSizeConcurrentOf(Update(ctx, cfg, UpdateStatsAtomicConcurrent, th, size).0, cfg).Success?
  {
    var r := Update(ctx, cfg, UpdateStatsAtomicConcurrent, th, size).0;
    var part := r.cstat[..GetMaxThreads(cfg)];
    assert part[th] == r.cstat[th];
    assert part[th].count >= 1;
  }

  // ---------------------------------------------------------------------
  // Sampling cadence

  /** The sample point sits on the last multiple of the frequency. */
  predicate Aligned(s: PktStat, freq: int)
  {
    freq >= 1 && s.lastUpdateCount == (s.count / freq) * freq
  }

  /** One counted update keeps the sample point aligned and triggers a read
      exactly when the count reaches a multiple of the frequency. */
  lemma UpdateKeepsAligned(ctx: Context, cfg: Option<Config>, fn: UpdateFn, th: int, size: nat)
    requires !fn.UpdateStatsAtomicConcurrent?
    requires Aligned(ctx.stat, GetStatsFreq(cfg)) && GetStatsFn(cfg).Some?
    ensures var (r, read) := Update(ctx, cfg, fn, th, size);
            && Aligned(r.stat, GetStatsFreq(cfg))
            && r.stat.count == ctx.stat.count + 1
            && (read <==> (ctx.stat.count + 1) % GetStatsFreq(cfg) == 0)
            && (ctx.stat.count + 1) / GetStatsFreq(cfg) == ctx.stat.count / GetStatsFreq(cfg) + (if read then 1 else 0)
  {
    var f := GetStatsFreq(cfg);
    var c := ctx.stat.count;
    var q := c / f;
    var m := c % f;
    assert c == q * f + m;
    var s := Step(ctx, fn, th, size);
    assert s.stat.count == c + 1;
    assert s.stat.count - s.stat.lastUpdateCount == m + 1;
    if m + 1 == f {
      DivUnique(c + 1, f, q + 1, 0);
    } else {
      DivUnique(c + 1, f, q, m + 1);
    }
  }

  /** Over a run of counted updates the number of reads is the number of
      multiples of the frequency crossed. */
  lemma {:induction false} FeedSamples(ctx: Context, cfg: Option<Config>, fn: UpdateFn, th: int, sizes: seq<nat>)
    requires !fn.UpdateStatsAtomicConcurrent?
    requires Aligned(ctx.stat, GetStatsFreq(cfg)) && GetStatsFn(cfg).Some?
    ensures var (r, sampled) := Feed(ctx, cfg, fn, th, sizes);
            && Aligned(r.stat, GetStatsFreq(cfg))
            && r.stat.count == ctx.stat.count + |sizes|
            && sampled == (ctx.stat.count + |sizes|) / GetStatsFreq(cfg) - ctx.stat.count / GetStatsFreq(cfg)
    decreases |sizes|
  {
    if |sizes| > 0 {
      UpdateKeepsAligned(ctx, cfg, fn, th, sizes[0]);
      FeedSamples(Update(ctx, cfg, fn, th, sizes[0]).0, cfg, fn, th, sizes[1..]);
    }
  }

  /** From a fresh context, `n` counted updates trigger `n / freq` reads and
      the gap since the last sample stays below the frequency. */
  lemma SamplesFromInit(cfg: Option<Config>, fn: UpdateFn, th: int, sizes: seq<nat>)
    requires !fn.UpdateStatsAtomicConcurrent?
    requires GetMaxThreads(cfg) >= 0 && GetStatsFreq(cfg) >= 1 && GetStatsFn(cfg).Some?
    ensures var (r, sampled) := Feed(Init(cfg), cfg, fn, th, sizes);
            && sampled == |sizes| / GetStatsFreq(cfg)
            && 0 <= r.stat.count - r.stat.lastUpdateCount < GetStatsFreq(cfg)
  {
    FeedSamples(Init(cfg), cfg, fn, th, sizes);
    var r := Feed(Init(cfg), cfg, fn, th, sizes).0;
    DivBounds(r.stat.count, GetStatsFreq(cfg));
  }

  /** `validateConfig` accepts `GetStatsFreq() <= 0`; then every update,
      of any routine, triggers a read. */
  lemma {:induction false} SamplesEveryUpdate(ctx: Context, cfg: Option<Config>, fn: UpdateFn, th: int, sizes: seq<nat>)
    requires CanUpdate(ctx, fn, th)
    requires GetStatsFreq(cfg) <= 0 && GetStatsFn(cfg).Some?
    requires ctx.stat.lastUpdateCount <= ctx.stat.count
    ensures Feed(ctx, cfg, fn, th, sizes).1 == |sizes|
    ensures Feed(ctx, cfg, fn, th, sizes).0.stat.lastUpdateCount <= Feed(ctx, cfg, fn, th, sizes).0.stat.count
    decreases |sizes|
  {
    if |sizes| > 0 {
      var (c, read) := Update(ctx, cfg, fn, th, sizes[0]);
      assert read && c.stat.lastUpdateCount <= c.stat.count;
      SamplesEveryUpdate(c, cfg, fn, th, sizes[1..]);
    }
  }

  // ---------------------------------------------------------------------
  // Mutex: an incremental average

  /** The mutex strategy's stat after `sizes`, as written. */
  function MutexFold(s: PktStat, sizes: seq<nat>): (r: PktStat)
    ensures r.count == s.count + |sizes|
    decreases |sizes|
  {
    if |sizes| == 0 then s else MutexFold(MutexStep(s, sizes[0]), sizes[1..])
  }

  /** The mutex strategy's stat after `sizes`, as intended. */
  function MutexFoldIntended(s: PktStat, sizes: seq<nat>): (r: PktStat)
    ensures r.count == s.count + |sizes|
    decreases |sizes|
  {
    if |sizes| == 0 then s else MutexFoldIntended(MutexStepIntended(s, sizes[0]), sizes[1..])
  }

  /** Feeding the mutex strategy computes `MutexFold` on the average and the
      count; sampling only moves `lastUpdateCount`, which the average ignores. */
  lemma {:induction false} FeedMutex(ctx: Context, s: PktStat, cfg: Option<Config>, th: int, sizes: seq<nat>)
    requires s.avgPktSize == ctx.stat.avgPktSize && s.count == ctx.stat.count
    ensures var r := Feed(ctx, cfg, UpdateStatsMutex, th, sizes).0;
            && r.stat.avgPktSize == MutexFold(s, sizes).avgPktSize
            && r.stat.count == MutexFold(s, sizes).count
            && r.smap == ctx.smap && r.cstat == ctx.cstat
    decreases |sizes|
  {
    if |sizes| > 0 {
      FeedMutex(Update(ctx, cfg, UpdateStatsMutex, th, sizes[0]).0, MutexStep(s, sizes[0]), cfg, th, sizes[1..]);
    }
  }

  /** Once a packet has been counted the code as written and the intended
      formula agree. */
  lemma {:induction false} MutexAgreesAfterFirst(s: PktStat, sizes: seq<nat>)
    requires s.count >= 1
    ensures MutexFold(s, sizes) == MutexFoldIntended(s, sizes)
    decreases |sizes|
  {
    if |sizes| > 0 {
      MutexAgreesAfterFirst(MutexStep(s, sizes[0]), sizes[1..]);
    }
  }

  /** The first-packet quirk exactly: the code as written behaves like the
      intended formula fed a zero-sized first packet. */
  lemma MutexQuirk(sizes: seq<nat>)
    requires |sizes| >= 1
    ensures MutexFold(ZeroStat, sizes) == MutexFoldIntended(ZeroStat, [0] + sizes[1..])
  {
    assert ([0] + sizes[1..])[1..] == sizes[1..];
    MutexAgreesAfterFirst(PktStat(0, 1, 0), sizes[1..]);
  }

  /** Finding, as written: after one packet of size 10 the average is 0,
      outside the range of the sizes seen. */
  lemma MutexFirstPacketDiscarded()
    ensures MutexFold(ZeroStat, [10]).avgPktSize == 0
    ensures MutexFoldIntended(ZeroStat, [10]).avgPktSize == 10
  {
  }

  /** The intended fold keeps the average inside the bounds of the sizes and
      the average times the count below the running sum. */
  lemma {:induction false} IntendedBoundedFrom(s: PktStat, sizes: seq<nat>, lo: nat, hi: nat, base: nat)
    requires s.count == 0 || lo <= s.avgPktSize <= hi
    requires s.avgPktSize * s.count <= base
    requires AllWithin(sizes, lo, hi)
    ensures var r := MutexFoldIntended(s, sizes);
            && (r.count == 0 || lo <= r.avgPktSize <= hi)
            && r.avgPktSize * r.count <= base + Sum(sizes)
    decreases |sizes|
  {
    if |sizes| > 0 {
      var x := sizes[0];
      IntendedStepBounded(s, x, lo, hi);
      MutexStepIntendedBounds(s, x);
      assert AllWithin(sizes[1..], lo, hi);
      IntendedBoundedFrom(MutexStepIntended(s, x), sizes[1..], lo, hi, base + x);
      SumCons(sizes);
    }
  }

  /** One intended step with a size in `[lo, hi]` keeps the average there. */
  lemma IntendedStepBounded(s: PktStat, x: nat, lo: nat, hi: nat)
    requires s.count == 0 || lo <= s.avgPktSize <= hi
    requires lo <= x <= hi
    ensures lo <= MutexStepIntended(s, x).avgPktSize <= hi
  {
    var n := s.count;
    var a := s.avgPktSize;
    if n > 0 {
      MulMonotone(lo, a, n);
      MulMonotone(a, hi, n);
      MulSucc(lo, n);
      MulSucc(hi, n);
      DivAtLeast(a * n + x, n + 1, lo);
      DivAtMost(a * n + x, n + 1, hi);
    }
  }

  /** Finding, corrected: the intended running average lies between the
      smallest and the largest size seen and never exceeds the true mean. */
  lemma IntendedAverageBounded(sizes: seq<nat>, lo: nat, hi: nat)
    requires |sizes| >= 1 && AllWithin(sizes, lo, hi)
    ensures var r := MutexFoldIntended(ZeroStat, sizes);
            && lo <= r.avgPktSize <= hi
            && r.avgPktSize * |sizes| <= Sum(sizes)
  {
    IntendedBoundedFrom(ZeroStat, sizes, lo, hi, 0);
  }

  /** Finding, as written: the mutex stat holds an average, yet its
      configured read divides it by the count again. Feeding 10, 20, 30 reads
      back 5 instead of 20; even with the intended update it reads 6. */
  lemma MutexReadDividesTwice(cfg: Option<Config>, th: int)
    requires GetMaxThreads(cfg) >= 0
    ensures GetAveragePktSizeOf(Feed(Init(cfg), cfg, UpdateStatsMutex, th, [10, 20, 30]).0) == 5
    ensures var c := Context(MutexFoldIntended(ZeroStat, [10, 20, 30]), map[], []);
            GetAveragePktSizeOf(c) == 6
    ensures Mean([10, 20, 30]) == 20
  {
    var s: seq<nat> := [10, 20, 30];
    FeedMutex(Init(cfg), ZeroStat, cfg, th, s);
    MutexTenTwentyThirty();
    SumTenTwentyThirty();
  }

  /** The two folds on 10, 20, 30. */
  lemma MutexTenTwentyThirty()
    ensures MutexFold(ZeroStat, [10, 20, 30]).avgPktSize == 16
    ensures MutexFold(ZeroStat, [10, 20, 30]).count == 3
    ensures MutexFoldIntended(ZeroStat, [10, 20, 30]).avgPktSize == 20
    ensures MutexFoldIntended(ZeroStat, [10, 20, 30]).count == 3
  {
    var s: seq<nat> := [10, 20, 30];
    assert s[1..] == [20, 30] && s[1..][1..] == [30] && s[1..][1..][1..] == [];
  }

  /** Even as intended, the incremental average truncates at every step and
      can drift below the mean: on 1, 2, 3, 3 it stays at 1 while the
      truncated mean is 2. `IntendedAverageBounded` is the bound that holds. */
  lemma MutexIntendedDrifts()
    ensures MutexFoldIntended(ZeroStat, [1, 2, 3, 3]).avgPktSize == 1
    ensures Mean([1, 2, 3, 3]) == 2
  {
    var s: seq<nat> := [1, 2, 3, 3];
    assert s[1..] == [2, 3, 3] && s[1..][1..] == [3, 3] && s[1..][1..][1..] == [3] && s[1..][1..][1..][1..] == [];
    SumCons(s);
    SumCons(s[1..]);
    SumCons(s[1..][1..]);
    SumCons(s[1..][1..][1..]);
  }

  /** The sum of 10, 20, 30. */
  lemma SumTenTwentyThirty()
    ensures Sum([10, 20, 30]) == 60
  {
    var s: seq<nat> := [10, 20, 30];
    SumCons(s);
    SumCons(s[1..]);
    SumCons(s[1..][1..]);
    assert s[1..] == [20, 30] && s[1..][1..] == [30] && s[1..][1..][1..] == [];
  }

  /** Finding, corrected: reading the intended mutex average directly gives
      20 for 10, 20, 30. */
  lemma MutexIntendedReadScenario()
    ensures ReadMutexAverage(Context(MutexFoldIntended(ZeroStat, [10, 20, 30]), map[], [])) == 20
  {
    var s: seq<nat> := [10, 20, 30];
    assert s[1..] == [20, 30] && s[1..][1..] == [30] && s[1..][1..][1..] == [];
  }

  // ---------------------------------------------------------------------
  // Reset

  /** Finding, as written: after `Reset` the partitions are gone, so the
      partition read indexes past the end and no worker can update. */
  lemma ResetBreaksConcurrent(ctx: Context, cfg: Option<Config>)
    requires GetMaxThreads(cfg) >= 1
    ensures GetAveragePktSizeConcurrentOf(Reset(ctx), cfg) == Failure(IndexOutOfRange)
    ensures forall th :: !CanUpdate(Reset(ctx), UpdateStatsAtomicConcurrent, th)
  {
  }

  /** Finding, corrected: the intended reset of a context sized for the
      configuration is exactly a fresh context, so any later run behaves as on
      a fresh one. */
  lemma ResetIntendedIsFresh(ctx: Context, cfg: Option<Config>)
    requires |ctx.cstat| == GetMaxThreads(cfg)
    ensures ResetIntended(ctx) == Init(cfg)
  {
  }

  /** Strategies other than the concurrent one never look at the
      partitions: two contexts that agree on the stat and the histogram stay
      in agreement, with the same reads triggered. */
  lemma {:induction false} FeedIgnoresPartitions(a: Context, b: Context, cfg: Option<Config>, fn: UpdateFn, th: int, sizes: seq<nat>)
    requires !fn.UpdateStatsAtomicConcurrent?
    requires a.stat == b.stat && a.smap == b.smap
    ensures Feed(a, cfg, fn, th, sizes).0.stat == Feed(b, cfg, fn, th, sizes).0.stat
    ensures Feed(a, cfg, fn, th, sizes).0.smap == Feed(b, cfg, fn, th, sizes).0.smap
    ensures Feed(a, cfg, fn, th, sizes).1 == Feed(b, cfg, fn, th, sizes).1
    decreases |sizes|
  {
    if |sizes| > 0 {
      FeedIgnoresPartitions(Update(a, cfg, fn, th, sizes[0]).0, Update(b, cfg, fn, th, sizes[0]).0, cfg, fn, th, sizes[1..]);
    }
  }

  /** For the mutex, atomic and map strategies `Reset` as written does give
      the results of a fresh context. */
  lemma ResetThenRunIsFresh(ctx: Context, cfg: Option<Config>, fn: UpdateFn, th: int, sizes: seq<nat>)
    requires !fn.UpdateStatsAtomicConcurrent? && GetMaxThreads(cfg) >= 0
    ensures Feed(Reset(ctx), cfg, fn, th, sizes).0.stat == Feed(Init(cfg), cfg, fn, th, sizes).0.stat
    ensures Feed(Reset(ctx), cfg, fn, th, sizes).0.smap == Feed(Init(cfg), cfg, fn, th, sizes).0.smap
    ensures Feed(Reset(ctx), cfg, fn, th, sizes).1 == Feed(Init(cfg), cfg, fn, th, sizes).1
  {
    FeedIgnoresPartitions(Reset(ctx), Init(cfg), cfg, fn, th, sizes);
  }
}
