/** The standalone variant in the repository root (pktstats.go): one
    `PktStat` holding a running sum, a count and a size histogram, three update
    routines, two reads, and `runDatapath`, which gives every worker an equal
    share of the packets and samples the read every tenth packet.

    The random packet sizes become the parameter `draws`: `draws[t][p]` is
    the value `r.Intn(MAX_PKT_SIZE)` returns to worker `t` at iteration `p`.
    Workers run one after another. */
module Legacy {
  import opened Sums
  import opened Histogram

  const MaxPktSize: nat := 32766
  const GetAverageSamplePercent: nat := 10

  /** Reads happen on every `Every`-th packet of a worker. */
  const Every: nat := 100 / GetAverageSamplePercent

  /** `PktStat`: running sum, count and histogram. A zero `PktStat` has a
      nil map in Go, which reads like the empty map here. */
  datatype LegacyStat = LegacyStat(pktSize: nat, cnt: nat, smap: Hist)

  const Zero: LegacyStat := LegacyStat(0, 0, map[])

  /** The three update routines `runDatapath` can be handed. */
  datatype LegacyUpdate = WithLock | Atomic | WithMap

  /** `UpdateStatWithLock`: add the size to the sum and count it. */
  function UpdateStatWithLock(p: LegacyStat, size: nat): (r: LegacyStat)
    ensures r.pktSize == p.pktSize + size && r.cnt == p.cnt + 1
    ensures r.smap == p.smap
  {
    p.(pktSize := p.pktSize + size, cnt := p.cnt + 1)
  }

  /** `UpdateStatAtomic`: the same two additions, done atomically in Go. */
  function UpdateStatAtomic(p: LegacyStat, size: nat): (r: LegacyStat)
    ensures r.pktSize == p.pktSize + size && r.cnt == p.cnt + 1
    ensures r.smap == p.smap
  {
    LegacyStat(p.pktSize + size, p.cnt + 1, p.smap)
  }

  /** `UpdateStatWithMap`: one more sample of `size` in the histogram; the
      sum and the count are not touched. */
  function UpdateStatWithMap(p: LegacyStat, size: nat): (r: LegacyStat)
    ensures Get(r.smap, size) == Get(p.smap, size) + 1
    ensures forall k :: k != size ==> Get(r.smap, k) == Get(p.smap, k)
    ensures r.pktSize == p.pktSize && r.cnt == p.cnt
  {
    p.(smap := Add(p.smap, size))
  }

  /** `ClearStatMap`: delete every key. */
  function ClearStatMap(p: LegacyStat): (r: LegacyStat)
    ensures |r.smap| == 0 && Total(r.smap) == 0
    ensures r.pktSize == p.pktSize && r.cnt == p.cnt
  {
    p.(smap := map[])
  }

  /** `GetAveragePktSize`: zero before any update, otherwise the sum divided
      by the count, truncated. */
  function GetAveragePktSize(p: LegacyStat): (r: nat)
    ensures p.cnt == 0 ==> r == 0
    ensures p.cnt > 0 ==> r * p.cnt <= p.pktSize < (r + 1) * p.cnt
  {
    if p.cnt == 0 then 0
    else
      DivBounds(p.pktSize, p.cnt);
      p.pktSize / p.cnt
  }

  /** Every histogram entry records at least one packet, which holds for
      any histogram built by `UpdateStatWithMap` and `ClearStatMap`. Without
      it the weighted mean could divide by zero. */
  ghost predicate MapWellFormed(p: LegacyStat)
  {
    |p.smap| == 0 || Total(p.smap) > 0
  }

  /** `GetAveragePktSizeUsingMap`: zero on an empty map, otherwise the
      truncated weighted mean of the histogram. */
  method GetAveragePktSizeUsingMap(p: LegacyStat) returns (r: nat)
    requires MapWellFormed(p)
    ensures |p.smap| == 0 ==> r == 0
    ensures |p.smap| > 0 ==> r * Total(p.smap) <= Weighted(p.smap) < (r + 1) * Total(p.smap)
    ensures r == HistMean(p.smap)
  {
    r := WeightedMean(p.smap);
    if |p.smap| > 0 {
      DivBounds(Weighted(p.smap), Total(p.smap));
    }
  }

  /** After `ClearStatMap` the map read is zero. */
  method ClearThenRead(p: LegacyStat) returns (r: nat)
    ensures r == 0
  {
    r := GetAveragePktSizeUsingMap(ClearStatMap(p));
  }

  /** The routine `u` applied once. */
  function Apply(u: LegacyUpdate, p: LegacyStat, size: nat): (r: LegacyStat)
    ensures !u.WithMap? ==> r.pktSize == p.pktSize + size && r.cnt == p.cnt + 1 && r.smap == p.smap
    ensures u.WithMap? ==> r.pktSize == p.pktSize && r.cnt == p.cnt && Get(r.smap, size) == Get(p.smap, size) + 1
    ensures u.WithMap? ==> forall k :: k != size ==> Get(r.smap, k) == Get(p.smap, k)
  {
    match u
    case WithLock => UpdateStatWithLock(p, size)
    case Atomic => UpdateStatAtomic(p, size)
    case WithMap => UpdateStatWithMap(p, size)
  }

  /** The routine `u` applied to `sizes`, first to last. */
  function ApplyAll(u: LegacyUpdate, p: LegacyStat, sizes: seq<nat>): (r: LegacyStat)
    ensures !u.WithMap? ==> r.cnt == p.cnt + |sizes| && r.smap == p.smap
    ensures u.WithMap? ==> r.pktSize == p.pktSize && r.cnt == p.cnt
    decreases |sizes|
  {
    if |sizes| == 0 then p else ApplyAll(u, Apply(u, p, sizes[0]), sizes[1..])
  }

  /** The locked and the atomic routine compute the same state. */
  lemma {:induction false} LockAndAtomicAgree(p: LegacyStat, sizes: seq<nat>)
    ensures ApplyAll(WithLock, p, sizes) == ApplyAll(Atomic, p, sizes)
    decreases |sizes|
  {
    if |sizes| > 0 {
      LockAndAtomicAgree(UpdateStatWithLock(p, sizes[0]), sizes[1..]);
    }
  }

  /** The sum routines add the sizes' sum and number and leave the map. */
  lemma {:induction false} ApplyAllSums(u: LegacyUpdate, p: LegacyStat, sizes: seq<nat>)
    requires !u.WithMap?
    ensures ApplyAll(u, p, sizes).pktSize == p.pktSize + Sum(sizes)
    ensures ApplyAll(u, p, sizes).cnt == p.cnt + |sizes|
    ensures ApplyAll(u, p, sizes).smap == p.smap
    decreases |sizes|
  {
    if |sizes| > 0 {
      ApplyAllSums(u, Apply(u, p, sizes[0]), sizes[1..]);
      SumCons(sizes);
    }
  }

  /** The map routine adds the sizes' number and sum to the histogram's
      totals and leaves the sum and the count. */
  lemma {:induction false} ApplyAllMap(p: LegacyStat, sizes: seq<nat>)
    ensures Total(ApplyAll(WithMap, p, sizes).smap) == Total(p.smap) + |sizes|
    ensures Weighted(ApplyAll(WithMap, p, sizes).smap) == Weighted(p.smap) + Sum(sizes)
    ensures ApplyAll(WithMap, p, sizes).pktSize == p.pktSize
    ensures ApplyAll(WithMap, p, sizes).cnt == p.cnt
    decreases |sizes|
  {
    if |sizes| > 0 {
      AddTotals(p.smap, sizes[0]);
      ApplyAllMap(UpdateStatWithMap(p, sizes[0]), sizes[1..]);
      SumCons(sizes);
    }
  }

  /** From a zero stat, the sum read is the truncated mean of the sizes. */
  lemma SumReadIsMean(u: LegacyUpdate, sizes: seq<nat>)
    requires !u.WithMap?
    ensures GetAveragePktSize(ApplyAll(u, Zero, sizes)) == Mean(sizes)
  {
    ApplyAllSums(u, Zero, sizes);
  }

  /** From an empty map, the map read is the truncated mean of the sizes. */
  lemma MapReadIsMean(p: LegacyStat, sizes: seq<nat>)
    requires |p.smap| == 0
    ensures MapWellFormed(ApplyAll(WithMap, p, sizes))
    ensures HistMean(ApplyAll(WithMap, p, sizes).smap) == Mean(sizes)
  {
    var h := ApplyAll(WithMap, p, sizes).smap;
    ApplyAllMap(p, sizes);
    assert Total(p.smap) == 0 && Weighted(p.smap) == 0;
    if |sizes| == 0 {
      assert h == p.smap;
    }
    HistMeanOfTotals(h, sizes);
  }

  /** `runDatapath`'s share per worker: `maxPkts / maxThreads` with Go's
      truncating division, raised to at least one. A zero `maxThreads`
      divides by zero in Go. */
  function Budget(maxThreads: int, maxPkts: int): (b: nat)
    requires maxThreads >= 1
    ensures b >= 1
    ensures maxPkts >= 2 * maxThreads ==> b * maxThreads <= maxPkts < (b + 1) * maxThreads
    ensures maxPkts < 2 * maxThreads ==> b == 1
  {
    var q := GoDiv(maxPkts, maxThreads);
    if q <= 1 then 1
    else
      assert maxPkts >= 2 * maxThreads by {
        if maxPkts < 2 * maxThreads {
          if maxPkts >= 0 {
            MulMonotone(2, q, maxThreads);
          }
        }
      }
      q
  }

  /** Ten thousand packets over ten workers: a thousand each. A single
      packet per worker is still one even when there are fewer packets than
      workers. */
  lemma BudgetExamples()
    ensures Budget(10, 10000) == 1000
    ensures Budget(10, 5) == 1 && Budget(10, -5) == 1 && Budget(3, 7) == 2
  {
    DivUnique(10000, 10, 1000, 0);
  }

  /** The iterations `0 .. b - 1` on which a worker samples the read. */
  function SampleCount(b: nat): (k: nat)
    ensures k * Every >= b && (k == 0 || (k - 1) * Every < b)
  {
    (b + Every - 1) / Every
  }

  /** The packet sizes worker draws turn into: `Intn(MAX_PKT_SIZE) + 1`. */
  function SizesOf(draws: seq<nat>): (sizes: seq<nat>)
    requires forall i :: 0 <= i < |draws| ==> draws[i] < MaxPktSize
    ensures |sizes| == |draws|
    ensures forall i :: 0 <= i < |draws| ==> sizes[i] == draws[i] + 1
    ensures AllWithin(sizes, 1, MaxPktSize)
  {
    seq(|draws|, i requires 0 <= i < |draws| => draws[i] + 1)
  }

  /** One worker of `runDatapath`: `b` iterations, each updating with a
      drawn size and sampling the read when the iteration number is a
      multiple of `Every`. */
  method RunWorker(u: LegacyUpdate, p: LegacyStat, b: nat, draws: seq<nat>)
    returns (p': LegacyStat, samples: nat)
    requires WorkerDrawn(draws, b)
    ensures p' == ApplyAll(u, p, SizesOf(draws[..b]))
    ensures samples == SampleCount(b)
  {
    var sizes := SizesOf(draws[..b]);
    p' := p;
    samples := 0;
    var i := 0;
    while i < b
      invariant 0 <= i <= b
      invariant ApplyAll(u, p', sizes[i..]) == ApplyAll(u, p, sizes)
      invariant samples == SampleCount(i)
    {
      ApplyAllTail(u, p', sizes, i);
      p' := Apply(u, p', sizes[i]);
      if i % Every == 0 {
        samples := samples + 1;
      }
      SampleStep(i);
      i := i + 1;
    }
    assert sizes[b..] == [];
  }

  /** Applying to a suffix applies to its head, then to the rest. */
  lemma ApplyAllTail(u: LegacyUpdate, p: LegacyStat, sizes: seq<nat>, i: nat)
    requires i < |sizes|
    ensures ApplyAll(u, p, sizes[i..]) == ApplyAll(u, Apply(u, p, sizes[i]), sizes[i + 1..])
  {
    assert sizes[i..][1..] == sizes[i + 1..];
  }

  /** One more iteration adds one sample exactly on multiples of `Every`. */
  lemma SampleStep(i: nat)
    ensures SampleCount(i + 1) == SampleCount(i) + if i % Every == 0 then 1 else 0
  {
    var q := i / Every;
    var m := i % Every;
    assert i == q * Every + m;
    if m == 0 {
      DivUnique(i + Every - 1, Every, q, Every - 1);
      DivUnique(i + Every, Every, q + 1, 0);
    } else {
      DivUnique(i + Every - 1, Every, q + 1, m - 1);
      DivUnique(i + Every, Every, q + 1, m);
    }
  }

  /** Every worker drew at least `b` values, each a possible result of
      `Intn(MAX_PKT_SIZE)`. */
  predicate Drawn(draws: seq<seq<nat>>, b: nat)
  {
    forall t :: 0 <= t < |draws| ==> WorkerDrawn(draws[t], b)
  }

  /** One worker drew at least `b` values, each a possible result of
      `Intn(MAX_PKT_SIZE)`. */
  predicate WorkerDrawn(draws: seq<nat>, b: nat)
  {
    |draws| >= b && forall i :: 0 <= i < |draws| ==> draws[i] < MaxPktSize
  }

  /** The sizes workers `0 .. n - 1` feed, worker by worker. */
  function Fed(draws: seq<seq<nat>>, b: nat, n: nat): (sizes: seq<nat>)
    requires n <= |draws| && Drawn(draws, b)
    ensures |sizes| == b * n
  {
    if n == 0 then []
    else
      MulSucc(b, n - 1);
      Fed(draws, b, n - 1) + SizesOf(draws[n - 1][..b])
  }

  /** Applying to `a + b` applies to `a`, then to `b`. */
  lemma {:induction false} ApplyAllAppend(u: LegacyUpdate, p: LegacyStat, a: seq<nat>, b: seq<nat>)
    ensures ApplyAll(u, p, a + b) == ApplyAll(u, ApplyAll(u, p, a), b)
    decreases |a|
  {
    if |a| == 0 {
      assert a + b == b;
    } else {
      assert (a + b)[1..] == a[1..] + b;
      ApplyAllAppend(u, Apply(u, p, a[0]), a[1..], b);
    }
  }

  /** `runDatapath` with one worker per element of `draws`: every worker
      updates `Budget` times and samples the read `SampleCount(Budget)`
      times. */
  method RunDatapath(u: LegacyUpdate, p: LegacyStat, maxThreads: int, maxPkts: int, draws: seq<seq<nat>>)
    returns (p': LegacyStat, samples: nat)
    requires maxThreads >= 1 && |draws| == maxThreads
    requires Drawn(draws, Budget(maxThreads, maxPkts))
    ensures p' == ApplyAll(u, p, Fed(draws, Budget(maxThreads, maxPkts), maxThreads))
    ensures samples == SampleCount(Budget(maxThreads, maxPkts)) * maxThreads
  {
    p', samples := RunWorkers(u, p, Budget(maxThreads, maxPkts), draws);
  }

  /** The workers of `runDatapath`, one after another, each with budget `b`. */
  method RunWorkers(u: LegacyUpdate, p: LegacyStat, b: nat, draws: seq<seq<nat>>)
    returns (p': LegacyStat, samples: nat)
    requires Drawn(draws, b)
    ensures p' == ApplyAll(u, p, Fed(draws, b, |draws|))
    ensures samples == SampleCount(b) * |draws|
  {
    p' := p;
    samples := 0;
    var t := 0;
    while t < |draws|
      invariant 0 <= t <= |draws|
      invariant p' == ApplyAll(u, p, Fed(draws, b, t))
      invariant samples == SampleCount(b) * t
    {
      var q, k := RunWorker(u, p', b, draws[t]);
      RunStep(u, p, draws, b, t);
      p', samples := q, samples + k;
      t := t + 1;
    }
  }

  /** Worker `t` carries on from where workers `0 .. t - 1` left off and
      adds its own samples. */
  lemma RunStep(u: LegacyUpdate, p: LegacyStat, draws: seq<seq<nat>>, b: nat, t: nat)
    requires t < |draws| && Drawn(draws, b)
    ensures WorkerDrawn(draws[t], b)
    ensures ApplyAll(u, ApplyAll(u, p, Fed(draws, b, t)), SizesOf(draws[t][..b])) == ApplyAll(u, p, Fed(draws, b, t + 1))
    ensures SampleCount(b) * t + SampleCount(b) == SampleCount(b) * (t + 1)
  {
    ApplyAllAppend(u, p, Fed(draws, b, t), SizesOf(draws[t][..b]));
    MulSucc(SampleCount(b), t);
  }

  /** The sum after a run of the sum routines from zero: the count is
      `maxThreads * Budget`, every size lies in `[1, MAX_PKT_SIZE]`, so the
      sum is at least the count and at most `MAX_PKT_SIZE` times it. */
  lemma RunTotals(u: LegacyUpdate, maxThreads: int, maxPkts: int, draws: seq<seq<nat>>)
    requires !u.WithMap?
    requires maxThreads >= 1 && |draws| == maxThreads
    requires Drawn(draws, Budget(maxThreads, maxPkts))
    ensures var r := ApplyAll(u, Zero, Fed(draws, Budget(maxThreads, maxPkts), maxThreads));
            && r.cnt == Budget(maxThreads, maxPkts) * maxThreads
            && r.cnt <= r.pktSize <= r.cnt * MaxPktSize
  {
    var b := Budget(maxThreads, maxPkts);
    var sizes := Fed(draws, b, maxThreads);
    ApplyAllSums(u, Zero, sizes);
    FedWithin(draws, b, maxThreads);
    SumWithin(sizes, 1, MaxPktSize);
  }

  /** Every size a run feeds lies in `[1, MAX_PKT_SIZE]`. */
  lemma {:induction false} FedWithin(draws: seq<seq<nat>>, b: nat, n: nat)
    requires n <= |draws| && Drawn(draws, b)
    ensures AllWithin(Fed(draws, b, n), 1, MaxPktSize)
    decreases n
  {
    if n > 0 {
      FedWithin(draws, b, n - 1);
      var a := Fed(draws, b, n - 1);
      var s := SizesOf(draws[n - 1][..b]);
      assert Fed(draws, b, n) == a + s;
      assert forall i :: 0 <= i < |a + s| ==> (a + s)[i] == if i < |a| then a[i] else s[i - |a|];
    }
  }

  /** A sum of sizes in `[lo, hi]` lies between `lo` and `hi` times their
      number. */
  lemma {:induction false} SumWithin(s: seq<nat>, lo: nat, hi: nat)
    requires AllWithin(s, lo, hi)
    ensures |s| * lo <= Sum(s) <= |s| * hi
    decreases |s|
  {
    if |s| > 0 {
      assert AllWithin(s[..|s| - 1], lo, hi);
      SumWithin(s[..|s| - 1], lo, hi);
      MulSucc(lo, |s| - 1);
      MulSucc(hi, |s| - 1);
      assert |s| * lo == (|s| - 1) * lo + lo;
      assert |s| * hi == (|s| - 1) * hi + hi;
    }
  }
}
