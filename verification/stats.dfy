/** The shared statistics context of pkg/datapath/pktstats.go and its four
    update disciplines. Each update and each read is one atomic step on an
    immutable `Context`; the locks and atomics that make the steps atomic in Go
    are not modelled. Counters are `uint64` in Go and unbounded here. */
module Stats {
  import opened Results
  import opened Sums
  import opened Histogram
  import opened DpConfig

  /** `PktStat`: depending on the strategy `avgPktSize` holds a running
      average (mutex) or a running sum (atomic, concurrent). */
  datatype PktStat = PktStat(avgPktSize: nat, count: nat, lastUpdateCount: nat)

  const ZeroStat: PktStat := PktStat(0, 0, 0)

  /** `DatapathContext`: the global stat, the size histogram and one stat per
      worker. */
  datatype Context = Context(stat: PktStat, smap: Hist, cstat: seq<PktStat>)

  /** How a Go read can crash instead of returning. */
  datatype Panic = IndexOutOfRange | DivideByZero

  // ---------------------------------------------------------------------
  // Partitions

  /** Sum of the sums and sum of the counts over the partitions `cs`. */
  function Reduce(cs: seq<PktStat>): (sc: (nat, nat))
    ensures forall i :: 0 <= i < |cs| ==> cs[i].avgPktSize <= sc.0 && cs[i].count <= sc.1
  {
    if |cs| == 0 then (0, 0)
    else
      var (s, c) := Reduce(cs[..|cs| - 1]);
      (s + cs[|cs| - 1].avgPktSize, c + cs[|cs| - 1].count)
  }

  /** Replacing one partition changes the reduction by the difference. */
  lemma {:induction false} ReduceReplace(cs: seq<PktStat>, th: int, x: PktStat)
    requires 0 <= th < |cs|
    ensures Reduce(cs[th := x]).0 + cs[th].avgPktSize == Reduce(cs).0 + x.avgPktSize
    ensures Reduce(cs[th := x]).1 + cs[th].count == Reduce(cs).1 + x.count
    decreases |cs|
  {
    var n := |cs| - 1;
    var ys := cs[th := x];
    assert Reduce(ys) == (Reduce(ys[..n]).0 + ys[n].avgPktSize, Reduce(ys[..n]).1 + ys[n].count);
    assert Reduce(cs) == (Reduce(cs[..n]).0 + cs[n].avgPktSize, Reduce(cs[..n]).1 + cs[n].count);
    if th == n {
      assert ys[..n] == cs[..n];
    } else {
      assert ys[..n] == cs[..n][th := x];
      ReduceReplace(cs[..n], th, x);
    }
  }

  /** All partitions are zero. */
  lemma {:induction false} ReduceZero(cs: seq<PktStat>)
    requires forall i :: 0 <= i < |cs| ==> cs[i] == ZeroStat
    ensures Reduce(cs) == (0, 0)
  {
    if |cs| > 0 {
      ReduceZero(cs[..|cs| - 1]);
    }
  }

  /** Every update counts one packet somewhere: in the global stat or in a
      partition. */
  function TotalCount(ctx: Context): nat
  {
    ctx.stat.count + Reduce(ctx.cstat).1
  }

  // ---------------------------------------------------------------------
  // Update steps (the part of each update routine before `ObtainStats`)

  /** `UpdateStatsMutex` as written: on the first packet the average is
      multiplied by the zero count instead of taking the packet's size. */
  function MutexStep(s: PktStat, size: nat): (r: PktStat)
    ensures r.count == s.count + 1 && r.lastUpdateCount == s.lastUpdateCount
    ensures s.count == 0 ==> r.avgPktSize == 0
    ensures s.count > 0 ==> r == MutexStepIntended(s, size)
  {
    if s.count < 1 then
      s.(avgPktSize := s.avgPktSize * s.count, count := s.count + 1)
    else
      s.(avgPktSize := (s.avgPktSize * s.count + size) / (s.count + 1), count := s.count + 1)
  }

  /** The incremental average the mutex strategy evidently intends: the same
      formula on every packet, the first included. */
  function MutexStepIntended(s: PktStat, size: nat): (r: PktStat)
    ensures r.count == s.count + 1 && r.lastUpdateCount == s.lastUpdateCount
    ensures s.count == 0 ==> r.avgPktSize == size
  {
    s.(avgPktSize := (s.avgPktSize * s.count + size) / (s.count + 1), count := s.count + 1)
  }

  /** The intended average after a step is the true running total divided by
      the new count, truncated: it undershoots by less than one packet. */
  lemma MutexStepIntendedBounds(s: PktStat, size: nat)
    ensures var r := MutexStepIntended(s, size);
            && r.avgPktSize * r.count <= s.avgPktSize * s.count + size
            && s.avgPktSize * s.count + size < (r.avgPktSize + 1) * r.count
  {
    DivBounds(s.avgPktSize * s.count + size, s.count + 1);
  }

  /** `UpdateStatsAtomic`: `avgPktSize` is used as a running sum. */
  function AtomicStep(s: PktStat, size: nat): (r: PktStat)
    ensures r.avgPktSize == s.avgPktSize + size
    ensures r.count == s.count + 1 && r.lastUpdateCount == s.lastUpdateCount
  {
    s.(avgPktSize := s.avgPktSize + size, count := s.count + 1)
  }

  /** `UpdateStatsMap`: one more sample of `size` in the histogram. */
  function MapStep(ctx: Context, size: nat): (r: Context)
    ensures Get(r.smap, size) == Get(ctx.smap, size) + 1
    ensures forall k :: k != size ==> Get(r.smap, k) == Get(ctx.smap, k)
    ensures r.stat == ctx.stat.(count := ctx.stat.count + 1)
    ensures r.cstat == ctx.cstat
  {
    ctx.(smap := Add(ctx.smap, size), stat := ctx.stat.(count := ctx.stat.count + 1))
  }

  /** `UpdateStatsAtomicConcurrent`: only worker `th`'s partition changes.
      Go panics on an index outside the partitions. */
  function ConcurrentStep(cs: seq<PktStat>, th: int, size: nat): (r: seq<PktStat>)
    requires 0 <= th < |cs|
    ensures |r| == |cs|
    ensures forall i :: 0 <= i < |cs| && i != th ==> r[i] == cs[i]
    ensures r[th] == cs[th].(avgPktSize := cs[th].avgPktSize + size, count := cs[th].count + 1)
    ensures Reduce(r) == (Reduce(cs).0 + size, Reduce(cs).1 + 1)
  {
    var x := cs[th].(avgPktSize := cs[th].avgPktSize + size, count := cs[th].count + 1);
    ReduceReplace(cs, th, x);
    cs[th := x]
  }

  /** The precondition of the configured update routine: the concurrent one
      indexes the partitions by worker. */
  predicate CanUpdate(ctx: Context, fn: UpdateFn, th: int)
  {
    fn.UpdateStatsAtomicConcurrent? ==> 0 <= th < |ctx.cstat|
  }

  /** The state change of the configured update routine. */
  function Step(ctx: Context, fn: UpdateFn, th: int, size: nat): (r: Context)
    requires CanUpdate(ctx, fn, th)
    ensures TotalCount(r) == TotalCount(ctx) + 1
    ensures |r.cstat| == |ctx.cstat|
    ensures r.stat.lastUpdateCount == ctx.stat.lastUpdateCount
    ensures !fn.UpdateStatsAtomicConcurrent? ==> r.stat.count == ctx.stat.count + 1 && r.cstat == ctx.cstat
    ensures fn.UpdateStatsAtomicConcurrent? ==> r.stat == ctx.stat && r.smap == ctx.smap
  {
    match fn
    case UpdateStatsMutex => ctx.(stat := MutexStep(ctx.stat, size))
    case UpdateStatsAtomic => ctx.(stat := AtomicStep(ctx.stat, size))
    case UpdateStatsMap => MapStep(ctx, size)
    case UpdateStatsAtomicConcurrent => ctx.(cstat := ConcurrentStep(ctx.cstat, th, size))
  }

  // ---------------------------------------------------------------------
  // Sampling

  /** `ObtainStats`: when at least `GetStatsFreq()` updates were counted since
      the last sample, call the configured read (if any) and remember the
      count. The read's value is discarded, so only whether it ran is
      returned. */
  function ObtainStats(ctx: Context, cfg: Option<Config>): (r: (Context, bool))
    ensures r.0.smap == ctx.smap && r.0.cstat == ctx.cstat
    ensures r.0.stat.avgPktSize == ctx.stat.avgPktSize && r.0.stat.count == ctx.stat.count
    ensures ctx.stat.count - ctx.stat.lastUpdateCount < GetStatsFreq(cfg) ==> r == (ctx, false)
    ensures ctx.stat.count - ctx.stat.lastUpdateCount >= GetStatsFreq(cfg) ==>
              r.0.stat.lastUpdateCount == ctx.stat.count && (r.1 <==> GetStatsFn(cfg).Some?)
  {
    if ctx.stat.count - ctx.stat.lastUpdateCount >= GetStatsFreq(cfg) then
      (ctx.(stat := ctx.stat.(lastUpdateCount := ctx.stat.count)), GetStatsFn(cfg).Some?)
    else
      (ctx, false)
  }

  /** One call of the configured update routine: the step, then sampling. */
  function Update(ctx: Context, cfg: Option<Config>, fn: UpdateFn, th: int, size: nat): (r: (Context, bool))
    requires CanUpdate(ctx, fn, th)
    ensures TotalCount(r.0) == TotalCount(ctx) + 1
    ensures |r.0.cstat| == |ctx.cstat|
  {
    ObtainStats(Step(ctx, fn, th, size), cfg)
  }

  /** Worker `th` feeding `sizes` to the configured update routine, first
      to last; also returns how many reads sampling triggered. */
  function Feed(ctx: Context, cfg: Option<Config>, fn: UpdateFn, th: int, sizes: seq<nat>): (r: (Context, nat))
    requires CanUpdate(ctx, fn, th)
    ensures |r.0.cstat| == |ctx.cstat|
    ensures r.1 <= |sizes|
    decreases |sizes|
  {
    if |sizes| == 0 then (ctx, 0)
    else
      var (c, read) := Update(ctx, cfg, fn, th, sizes[0]);
      var (c', n) := Feed(c, cfg, fn, th, sizes[1..]);
      (c', n + if read then 1 else 0)
  }

  // ---------------------------------------------------------------------
  // Lifecycle

  /** `Init`: zero the stat, a fresh empty histogram, and one zero partition
      per configured worker. */
  function Init(cfg: Option<Config>): (ctx: Context)
    requires GetMaxThreads(cfg) >= 0
    ensures ctx.stat == ZeroStat && ctx.smap == map[]
    ensures |ctx.cstat| == GetMaxThreads(cfg)
    ensures forall i :: 0 <= i < |ctx.cstat| ==> ctx.cstat[i] == ZeroStat
    ensures Reduce(ctx.cstat) == (0, 0) && TotalCount(ctx) == 0
  {
    var cs := seq(GetMaxThreads(cfg), _ => ZeroStat);
    ReduceZero(cs);
    Context(ZeroStat, map[], cs)
  }

  /** `Reset` as written: empties the histogram and zeroes the stat, but
      truncates the partitions to length zero (`cstat[:0]`). */
  function Reset(ctx: Context): (r: Context)
    ensures r.stat == ZeroStat && r.smap == map[]
    ensures r.cstat == []
    ensures TotalCount(r) == 0
  {
    Context(ZeroStat, map[], ctx.cstat[..0])
  }

  /** The reset that restores a fresh context: partitions keep their number
      and are zeroed. */
  function ResetIntended(ctx: Context): (r: Context)
    ensures r.stat == ZeroStat && r.smap == map[]
    ensures |r.cstat| == |ctx.cstat|
    ensures forall i :: 0 <= i < |r.cstat| ==> r.cstat[i] == ZeroStat
    ensures TotalCount(r) == 0
  {
    var cs := seq(|ctx.cstat|, _ => ZeroStat);
    ReduceZero(cs);
    Context(ZeroStat, map[], cs)
  }

  // ---------------------------------------------------------------------
  // Reads

  /** `GetAveragePktSize`: zero before any update, otherwise `avgPktSize`
      divided by `count`, truncated. */
  function GetAveragePktSizeOf(ctx: Context): (r: nat)
    ensures ctx.stat.count == 0 ==> r == 0
    ensures ctx.stat.count > 0 ==>
              r * ctx.stat.count <= ctx.stat.avgPktSize < (r + 1) * ctx.stat.count
  {
    if ctx.stat.count <= 0 then 0
    else
      DivBounds(ctx.stat.avgPktSize, ctx.stat.count);
      ctx.stat.avgPktSize / ctx.stat.count
  }

  /** `GetAveragePktSizeMap`: the histogram's weighted mean. */
  method GetAveragePktSizeMapOf(ctx: Context) returns (r: nat)
    requires |ctx.smap| == 0 || Total(ctx.smap) > 0
    ensures |ctx.smap| == 0 ==> r == 0
    ensures |ctx.smap| > 0 ==> r * Total(ctx.smap) <= Weighted(ctx.smap) < (r + 1) * Total(ctx.smap)
  {
    r := WeightedMean(ctx.smap);
    if |ctx.smap| > 0 {
      DivBounds(Weighted(ctx.smap), Total(ctx.smap));
    }
  }

  /** `GetAveragePktSizeConcurrent` as written: reduce the first
      `GetMaxThreads()` partitions and divide, with no guard: Go panics on a
      missing partition or a zero total count. */
  function GetAveragePktSizeConcurrentOf(ctx: Context, cfg: Option<Config>): (r: Result<nat, Panic>)
    ensures r == Failure(IndexOutOfRange) <==> GetMaxThreads(cfg) > |ctx.cstat|
    ensures r == Failure(DivideByZero) <==>
              GetMaxThreads(cfg) <= |ctx.cstat| && (GetMaxThreads(cfg) <= 0 || Reduce(ctx.cstat[..GetMaxThreads(cfg)]).1 == 0)
    ensures r.Success? ==>
              var (s, c) := Reduce(ctx.cstat[..GetMaxThreads(cfg)]);
              c > 0 && r.value * c <= s < (r.value + 1) * c
  {
    var n := GetMaxThreads(cfg);
    if n > |ctx.cstat| then Failure(IndexOutOfRange)
    else
      var (s, c) := Reduce(ctx.cstat[..if n < 0 then 0 else n]);
      if c == 0 then Failure(DivideByZero)
      else
        DivBounds(s, c);
        Success(s / c)
  }

  /** The partition read with the zero guard the other reads have. */
  function GetAveragePktSizeConcurrentGuarded(ctx: Context, cfg: Option<Config>): (r: Result<nat, Panic>)
    ensures r.Failure? <==> GetMaxThreads(cfg) > |ctx.cstat|
    ensures r.Failure? ==> r.error == IndexOutOfRange
    ensures r.Success? && GetMaxThreads(cfg) > 0 && Reduce(ctx.cstat[..GetMaxThreads(cfg)]).1 > 0 ==>
              var (s, c) := Reduce(ctx.cstat[..GetMaxThreads(cfg)]);
              r.value * c <= s < (r.value + 1) * c
    ensures r.Success? && (GetMaxThreads(cfg) <= 0 || Reduce(ctx.cstat[..GetMaxThreads(cfg)]).1 == 0) ==>
              r.value == 0
  {
    var n := GetMaxThreads(cfg);
    if n > |ctx.cstat| then Failure(IndexOutOfRange)
    else
      var (s, c) := Reduce(ctx.cstat[..if n < 0 then 0 else n]);
      if c == 0 then Success(0)
      else
        DivBounds(s, c);
        Success(s / c)
  }

  /** The mutex strategy's average, read directly. */
  function ReadMutexAverage(ctx: Context): nat
  {
    ctx.stat.avgPktSize
  }
}
