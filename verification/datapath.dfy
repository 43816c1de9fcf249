/** The driver of pkg/datapath/datapath.go: installing a configuration,
    spraying packets over one LIFO queue per worker, and draining every queue
    through the configured update routine.

    The package's globals `ctx`, `dpCfg` and `pq` become the explicit `World`
    record, and a packet is represented by its length (the only field the
    datapath reads). The packet generator is the parameter `gen`: `gen(i, k)`
    is the length of the `k`-th packet generated for worker `i`. The workers,
    goroutines in Go, are run one after another in worker order. */
module Datapath {
  import opened Results
  import opened Sums
  import opened Stack
  import opened Histogram
  import opened DpConfig
  import opened Stats
  import opened StatsLemmas

  /** The globals: running context, installed configuration, packet queues. */
  datatype World = World(ctx: Option<Context>, cfg: Option<Config>, pq: seq<Stack<nat>>)

  datatype DpError =
    | Invalid(reason: ConfigError)
    | NilConfigOrContext
    | QueueFailed(worker: nat)

  /** The packet generator: the length of each worker's `k`-th packet. */
  type Generator = (nat, nat) -> nat

  /** `CreateDatapathContext`: a zero context with no histogram and no
      partitions yet. */
  function CreateDatapathContext(w: World): (r: World)
    ensures r.ctx.Some? && TotalCount(r.ctx.value) == 0 && GetAveragePktSizeOf(r.ctx.value) == 0
    ensures r.cfg == w.cfg && r.pq == w.pq
  {
    w.(ctx := Some(Context(ZeroStat, map[], [])))
  }

  /** A configuration is only ever installed by `InitDatapath`, after it
      validated. */
  predicate Installed(w: World)
  {
    w.cfg.None? || Acceptable(w.cfg)
  }

  // ---------------------------------------------------------------------
  // Populating the queues

  /** Packets per worker: `MaxPkts / MaxThreads`, both positive, so Go's
      truncating division is the floor. The remainder is never queued. */
  function Budget(cfg: Config): (m: nat)
    requires Acceptable(Some(cfg))
    ensures m * cfg.maxThreads <= cfg.maxPkts < (m + 1) * cfg.maxThreads
  {
    DivBounds(cfg.maxPkts, cfg.maxThreads);
    cfg.maxPkts / cfg.maxThreads
  }

  /** Ten packets on four workers: two each, and two are dropped. */
  lemma BudgetTenOnFour(u: UpdateFn, g: ReadFn, freq: int)
    ensures Budget(Config(CtxAtomic, Some(u), Some(g), freq, 4, 10)) == 2
  {
    DivUnique(10, 4, 2, 2);
  }

  /** The lengths of the packets generated for worker `i`, in order. */
  function WorkerPackets(i: nat, m: nat, gen: Generator): (ps: seq<nat>)
    ensures |ps| == m
    ensures forall k :: 0 <= k < m ==> ps[k] == gen(i, k)
  {
    seq(m, (k: int) requires 0 <= k => gen(i, k))
  }

  /** Worker `i`'s queue: a fresh buffer of capacity `m` filled with its `m`
      packets, which always fit. */
  function FillQueue(i: nat, m: nat, gen: Generator): (r: (Stack<nat>, Option<QueueError>))
    ensures r.1.None?
    ensures Valid(r.0) && r.0.max == m && IsFull(r.0)
    ensures Elements(r.0) == WorkerPackets(i, m, gen)
  {
    var q := NewQueue(m);
    QueueAllFits(q, WorkerPackets(i, m, gen));
    FullIffCapacityReached(QueueAll(q, WorkerPackets(i, m, gen)).0);
    QueueAll(q, WorkerPackets(i, m, gen))
  }

  /** The queues of workers `0 .. n - 1`, stopping at the first failure. */
  function BuildQueues(n: nat, m: nat, gen: Generator): (r: (seq<Stack<nat>>, Option<DpError>))
    ensures r.1.None? && |r.0| == n
    ensures forall i :: 0 <= i < n ==>
              Valid(r.0[i]) && r.0[i].max == m && IsFull(r.0[i]) && Elements(r.0[i]) == WorkerPackets(i, m, gen)
  {
    if n == 0 then ([], None)
    else
      var (qs, err) := BuildQueues(n - 1, m, gen);
      if err.Some? then (qs, err)
      else
        var (q, e) := FillQueue(n - 1, m, gen);
        if e.Some? then (qs + [q], Some(QueueFailed(n - 1))) else (qs + [q], None)
  }

  /** One full queue per configured worker, holding that worker's packets. */
  predicate Populated(pq: seq<Stack<nat>>, cfg: Config, gen: Generator)
    requires Acceptable(Some(cfg))
  {
    && |pq| == cfg.maxThreads
    && forall i :: 0 <= i < |pq| ==>
         && Valid(pq[i]) && pq[i].max == Budget(cfg) && IsFull(pq[i])
         && Elements(pq[i]) == WorkerPackets(i, Budget(cfg), gen)
  }

  /** `populatePacketQueue`: refuses a missing context or configuration and
      otherwise replaces the queues. */
  function PopulatePacketQueue(w: World, gen: Generator): (r: (World, Option<DpError>))
    requires Installed(w)
    ensures r.1.Some? <==> w.ctx.None? || w.cfg.None?
    ensures r.1.Some? ==> r == (w, Some(NilConfigOrContext))
    ensures r.1.None? ==> r.0.ctx == w.ctx && r.0.cfg == w.cfg && Populated(r.0.pq, w.cfg.value, gen)
  {
    if w.ctx.None? || w.cfg.None? then (w, Some(NilConfigOrContext))
    else
      var (pq, err) := BuildQueues(w.cfg.value.maxThreads, Budget(w.cfg.value), gen);
      (w.(pq := pq), err)
  }

  // ---------------------------------------------------------------------
  // Initialisation

  /** `InitDatapath`: validate, install a copy of the configuration, then
      initialise the context (which sizes its partitions from the installed
      configuration), then populate the queues, ignoring that step's error.
      Calling it without a context dereferences a nil pointer in Go. */
  function InitDatapath(w: World, cfg: Option<Config>, gen: Generator): (r: (World, Option<DpError>))
    requires w.ctx.Some?
    ensures r.1.Some? <==> !Acceptable(cfg)
    ensures r.1.Some? ==> r.0 == w && r.1.value == Invalid(ValidateConfig(cfg).value)
    ensures r.1.None? ==>
              && r.0.cfg == cfg
              && r.0.ctx == Some(Init(cfg))
              && Populated(r.0.pq, cfg.value, gen)
  {
    var err := ValidateConfig(cfg);
    if err.Some? then (w, Some(Invalid(err.value)))
    else
      var installed := w.(cfg := cfg);
      var initialised := installed.(ctx := Some(Init(installed.cfg)));
      var (populated, _) := PopulatePacketQueue(initialised, gen);
      (populated, None)
  }

  /** After a successful `InitDatapath` the getters report the new
      configuration, the partitions match its worker count, and the queues
      hold `Budget` packets per worker; after a failed one they report what
      was installed before, which is zero and nil when nothing was. */
  lemma InitInstallsConfig(w: World, cfg: Option<Config>, gen: Generator)
    requires w.ctx.Some?
    ensures var (r, err) := InitDatapath(w, cfg, gen);
            && (err.None? ==>
                  && GetCtxType(r.cfg) == cfg.value.ctxType
                  && GetStatsFreq(r.cfg) == cfg.value.getStatsFreq
                  && GetStatsFn(r.cfg) == cfg.value.getStatsFn
                  && GetMaxThreads(r.cfg) == cfg.value.maxThreads
                  && GetMaxPkts(r.cfg) == cfg.value.maxPkts
                  && |r.ctx.value.cstat| == GetMaxThreads(r.cfg)
                  && |r.pq| == GetMaxThreads(r.cfg)
                  && (forall i :: 0 <= i < |r.pq| ==> |Elements(r.pq[i])| == GetMaxPkts(r.cfg) / GetMaxThreads(r.cfg)))
            && (err.Some? ==>
                  && GetCtxType(r.cfg) == GetCtxType(w.cfg)
                  && GetMaxThreads(r.cfg) == GetMaxThreads(w.cfg)
                  && GetMaxPkts(r.cfg) == GetMaxPkts(w.cfg))
            && (err.Some? && w.cfg.None? ==>
                  && GetCtxType(r.cfg) == 0 && GetStatsFreq(r.cfg) == 0
                  && GetStatsFn(r.cfg).None?
                  && GetMaxThreads(r.cfg) == 0 && GetMaxPkts(r.cfg) == 0)
  {
  }

  // ---------------------------------------------------------------------
  // Draining

  /** The packets of `q` in the order a worker pops them: top first. */
  function Pending(q: Stack<nat>): (ps: seq<nat>)
    requires Valid(q)
    ensures |ps| == q.current + 1
  {
    Reverse(Elements(q))
  }

  /** The length a worker passes on: zero for no packet. */
  function SizeOf(p: Option<nat>): nat
  {
    if p.None? then 0 else p.value
  }

  /** `GetNextPacket`: pop worker `t`'s next packet, or nothing from an empty
      queue. Go panics on a worker without a queue. */
  function GetNextPacket(pq: seq<Stack<nat>>, t: int): (r: (seq<Stack<nat>>, Option<nat>))
    requires 0 <= t < |pq| && Valid(pq[t])
    ensures |r.0| == |pq|
    ensures forall i :: 0 <= i < |pq| && i != t ==> r.0[i] == pq[i]
    ensures Valid(r.0[t]) && r.0[t].max == pq[t].max && r.0[t].arr == pq[t].arr
    ensures r.1.None? <==> IsEmpty(pq[t])
    ensures IsEmpty(pq[t]) ==> r.0 == pq
    ensures !IsEmpty(pq[t]) ==> r.1 == Some(Pending(pq[t])[0]) && Pending(r.0[t]) == Pending(pq[t])[1..]
  {
    if IsEmpty(pq[t]) then (pq, None)
    else
      var (q, out) := Dequeue(pq[t]);
      PendingAfterPop(pq[t]);
      (pq[t := q], if out.Success? then Some(out.value) else None)
  }

  /** Popping takes the first pending packet and leaves the rest pending. */
  lemma PendingAfterPop(q: Stack<nat>)
    requires Valid(q) && !IsEmpty(q)
    ensures Dequeue(q).1 == Success(Pending(q)[0])
    ensures Pending(Dequeue(q).0) == Pending(q)[1..]
  {
    var e := Elements(q);
    var e' := Elements(Dequeue(q).0);
    assert e' == e[..|e| - 1];
    assert Reverse(e) == [e[|e| - 1]] + Reverse(e');
  }

  /** The update routine the installed configuration names. */
  function UpdateOf(w: World): UpdateFn
    requires Installed(w) && w.cfg.Some?
  {
    w.cfg.value.updateStatsFn.value
  }

  /** A drained queue: nothing stored, slots as they were. */
  function Drain(q: Stack<nat>): (r: Stack<nat>)
    requires Valid(q)
    ensures Valid(r) && IsEmpty(r) && r.max == q.max && r.arr == q.arr
    ensures Pending(r) == []
  {
    q.(current := -1)
  }

  /** `processPkt`: worker `th` pops packets until its queue is empty and
      passes each length to the update routine `fn`; pre- and
      post-processing do nothing. The context ends up as if `fn` were fed the
      pending packets in pop order. */
  method ProcessPkt(ctx: Context, cfg: Option<Config>, fn: UpdateFn, pq: seq<Stack<nat>>, th: int)
    returns (ctx': Context, pq': seq<Stack<nat>>, sampled: nat)
    requires 0 <= th < |pq| && Valid(pq[th]) && CanUpdate(ctx, fn, th)
    ensures ctx' == Feed(ctx, cfg, fn, th, Pending(pq[th])).0
    ensures sampled == Feed(ctx, cfg, fn, th, Pending(pq[th])).1
    ensures pq' == pq[th := Drain(pq[th])]
  {
    ctx' := ctx;
    pq' := pq;
    sampled := 0;
    while !IsEmpty(pq'[th])
      invariant |pq'| == |pq| && Valid(pq'[th])
      invariant pq' == pq[th := pq[th].(current := pq'[th].current)]
      invariant |ctx'.cstat| == |ctx.cstat|
      invariant Feed(ctx', cfg, fn, th, Pending(pq'[th])).0 == Feed(ctx, cfg, fn, th, Pending(pq[th])).0
      invariant Feed(ctx', cfg, fn, th, Pending(pq'[th])).1 + sampled == Feed(ctx, cfg, fn, th, Pending(pq[th])).1
      decreases pq'[th].current
    {
      var c, q, read := ProcessNext(ctx', cfg, fn, pq', th);
      ctx', pq' := c, q;
      sampled := sampled + if read then 1 else 0;
    }
  }

  /** One iteration of `processPkt`: pop the next packet and feed its length
      to `fn`. The rest of the queue is left to feed, and nothing else
      changes. */
  method ProcessNext(ctx: Context, cfg: Option<Config>, fn: UpdateFn, pq: seq<Stack<nat>>, th: int)
    returns (ctx': Context, pq': seq<Stack<nat>>, read: bool)
    requires 0 <= th < |pq| && Valid(pq[th]) && !IsEmpty(pq[th]) && CanUpdate(ctx, fn, th)
    ensures pq' == pq[th := pq[th].(current := pq[th].current - 1)]
    ensures |ctx'.cstat| == |ctx.cstat|
    ensures Feed(ctx', cfg, fn, th, Pending(pq'[th])).0 == Feed(ctx, cfg, fn, th, Pending(pq[th])).0
    ensures Feed(ctx', cfg, fn, th, Pending(pq'[th])).1 + (if read then 1 else 0)
            == Feed(ctx, cfg, fn, th, Pending(pq[th])).1
  {
    var next := GetNextPacket(pq, th);
    assert next.0[th] == pq[th].(current := pq[th].current - 1);
    var updated := Update(ctx, cfg, fn, th, SizeOf(next.1));
    ctx', pq', read := updated.0, next.0, updated.1;
  }

  // ---------------------------------------------------------------------
  // Running all workers

  /** What `RunDatapath` needs from the globals: a context and a validated
      configuration whose read cannot panic, a valid queue for every worker,
      and, for the concurrent routine, a partition for every worker. */
  predicate Runnable(w: World)
  {
    && w.ctx.Some? && Acceptable(w.cfg) && ReadMatchesUpdate(w.cfg.value)
    && |w.pq| >= w.cfg.value.maxThreads
    && (forall i :: 0 <= i < |w.pq| ==> Valid(w.pq[i]))
    && (w.cfg.value.updateStatsFn.value.UpdateStatsAtomicConcurrent? ==> |w.ctx.value.cstat| >= w.cfg.value.maxThreads)
  }

  /** The packets each queue in `qs` holds, in the order its worker pops them. */
  function Work(qs: seq<Stack<nat>>): (ws: seq<seq<nat>>)
    requires forall i :: 0 <= i < |qs| ==> Valid(qs[i])
    ensures |ws| == |qs| && forall i :: 0 <= i < |qs| ==> ws[i] == Pending(qs[i])
  {
    seq(|qs|, i requires 0 <= i < |qs| => Pending(qs[i]))
  }

  /** One more queue adds one more packet list. */
  lemma WorkSnoc(qs: seq<Stack<nat>>, k: nat)
    requires k < |qs| && forall i :: 0 <= i < |qs| ==> Valid(qs[i])
    ensures Work(qs[..k + 1]) == Work(qs[..k]) + [Pending(qs[k])]
  {
  }

  /** Draining queue `k` after queues `0 .. k - 1` extends the run by that
      worker's pending packets. */
  lemma RunOneMore(ctx: Context, cfg: Option<Config>, fn: UpdateFn, qs: seq<Stack<nat>>, k: nat)
    requires k < |qs| && forall i :: 0 <= i < |qs| ==> Valid(qs[i])
    requires fn.UpdateStatsAtomicConcurrent? ==> k < |ctx.cstat|
    ensures var before := RunWorkers(ctx, cfg, fn, Work(qs[..k]));
            RunWorkers(ctx, cfg, fn, Work(qs[..k + 1])).0 == Feed(before.0, cfg, fn, k, Pending(qs[k])).0
    ensures var before := RunWorkers(ctx, cfg, fn, Work(qs[..k]));
            RunWorkers(ctx, cfg, fn, Work(qs[..k + 1])).1 == before.1 + Feed(before.0, cfg, fn, k, Pending(qs[k])).1
  {
    WorkSnoc(qs, k);
    var ws := Work(qs[..k + 1]);
    assert ws[..k] == Work(qs[..k]);
    assert ws[k] == Pending(qs[k]);
  }

  /** Workers `0 .. |ws| - 1` drained one after another, worker `i` feeding
      `ws[i]` to the update routine. */
  function RunWorkers(ctx: Context, cfg: Option<Config>, fn: UpdateFn, ws: seq<seq<nat>>): (r: (Context, nat))
    requires fn.UpdateStatsAtomicConcurrent? ==> |ws| <= |ctx.cstat|
    ensures |r.0.cstat| == |ctx.cstat|
  {
    if |ws| == 0 then (ctx, 0)
    else
      var before := RunWorkers(ctx, cfg, fn, ws[..|ws| - 1]);
      var last := Feed(before.0, cfg, fn, |ws| - 1, ws[|ws| - 1]);
      (last.0, before.1 + last.1)
  }

  /** All packet lists of `ws`, in order. */
  function Concat(ws: seq<seq<nat>>): (ps: seq<nat>)
  {
    if |ws| == 0 then [] else Concat(ws[..|ws| - 1]) + ws[|ws| - 1]
  }

  /** Queues `0 .. k - 1` of `qs` drained, the rest untouched. */
  function DrainedUpTo(qs: seq<Stack<nat>>, k: nat): (r: seq<Stack<nat>>)
    requires k <= |qs| && forall i :: 0 <= i < |qs| ==> Valid(qs[i])
    ensures |r| == |qs|
    ensures forall i :: 0 <= i < k ==> r[i] == Drain(qs[i])
    ensures forall i :: k <= i < |qs| ==> r[i] == qs[i]
  {
    seq(|qs|, i requires 0 <= i < |qs| => if i < k then Drain(qs[i]) else qs[i])
  }

  /** One loop step of `RunDatapath`: draining queue `th` of the partly
      drained queues extends the run by one worker. */
  lemma DrainNext(ctx: Context, cfg: Option<Config>, fn: UpdateFn, qs: seq<Stack<nat>>, th: nat,
                  c: Context, q: seq<Stack<nat>>, k: nat)
    requires th < |qs| && forall i :: 0 <= i < |qs| ==> Valid(qs[i])
    requires fn.UpdateStatsAtomicConcurrent? ==> th < |ctx.cstat|
    requires var before := RunWorkers(ctx, cfg, fn, Work(qs[..th])).0;
             && c == Feed(before, cfg, fn, th, Pending(qs[th])).0
             && q == DrainedUpTo(qs, th)[th := Drain(qs[th])]
    ensures q == DrainedUpTo(qs, th + 1)
    ensures c == RunWorkers(ctx, cfg, fn, Work(qs[..th + 1])).0
    ensures RunWorkers(ctx, cfg, fn, Work(qs[..th + 1])).1
            == RunWorkers(ctx, cfg, fn, Work(qs[..th])).1
               + Feed(RunWorkers(ctx, cfg, fn, Work(qs[..th])).0, cfg, fn, th, Pending(qs[th])).1
  {
    RunOneMore(ctx, cfg, fn, qs, th);
  }

  /** The main loop of `RunDatapath`: workers `0 .. n - 1` each drain their
      queue, one after another. */
  method DrainAll(ctx: Context, cfg: Option<Config>, fn: UpdateFn, qs: seq<Stack<nat>>, n: nat)
    returns (ctx': Context, qs': seq<Stack<nat>>, sampled: nat)
    requires n <= |qs| && forall i :: 0 <= i < |qs| ==> Valid(qs[i])
    requires fn.UpdateStatsAtomicConcurrent? ==> n <= |ctx.cstat|
    ensures ctx' == RunWorkers(ctx, cfg, fn, Work(qs[..n])).0
    ensures sampled == RunWorkers(ctx, cfg, fn, Work(qs[..n])).1
    ensures qs' == DrainedUpTo(qs, n)
  {
    ctx' := ctx;
    qs' := qs;
    sampled := 0;
    var th := 0;
    while th < n
      invariant 0 <= th <= n
      invariant qs' == DrainedUpTo(qs, th)
      invariant ctx' == RunWorkers(ctx, cfg, fn, Work(qs[..th])).0
      invariant sampled == RunWorkers(ctx, cfg, fn, Work(qs[..th])).1
    {
      var c, q, k := ProcessPkt(ctx', cfg, fn, qs', th);
      DrainNext(ctx, cfg, fn, qs, th, c, q, k);
      ctx', qs', sampled := c, q, sampled + k;
      th := th + 1;
    }
  }

  /** `RunDatapath`: start one worker per configured thread and wait for all
      of them. Go panics without a context or configuration. The result is
      that of draining the workers' queues one after another. */
  method RunDatapath(w: World) returns (w': World, sampled: nat)
    requires Runnable(w)
    ensures w'.cfg == w.cfg && w'.ctx.Some?
    ensures w'.ctx.value == RunWorkers(w.ctx.value, w.cfg, UpdateOf(w), Work(w.pq[..w.cfg.value.maxThreads])).0
    ensures sampled == RunWorkers(w.ctx.value, w.cfg, UpdateOf(w), Work(w.pq[..w.cfg.value.maxThreads])).1
    ensures w'.pq == DrainedUpTo(w.pq, w.cfg.value.maxThreads)
  {
    var ctx, pq, k := DrainAll(w.ctx.value, w.cfg, UpdateOf(w), w.pq, w.cfg.value.maxThreads);
    w' := w.(ctx := Some(ctx), pq := pq);
    sampled := k;
  }

  // ---------------------------------------------------------------------
  // Properties of a run

  /** The update routines other than the concurrent one ignore the worker
      index. */
  lemma {:induction false} FeedAnyWorker(ctx: Context, cfg: Option<Config>, fn: UpdateFn, a: int, b: int, sizes: seq<nat>)
    requires !fn.UpdateStatsAtomicConcurrent?
    ensures Feed(ctx, cfg, fn, a, sizes).0 == Feed(ctx, cfg, fn, b, sizes).0
    ensures Feed(ctx, cfg, fn, a, sizes).1 == Feed(ctx, cfg, fn, b, sizes).1
    decreases |sizes|
  {
    if |sizes| > 0 {
      FeedAnyWorker(Update(ctx, cfg, fn, a, sizes[0]).0, cfg, fn, a, b, sizes[1..]);
    }
  }

  /** For the mutex, atomic and map routines, draining the workers one after
      another is one stream of all their packets. */
  lemma {:induction false} RunIsFeed(ctx: Context, cfg: Option<Config>, fn: UpdateFn, ws: seq<seq<nat>>)
    requires !fn.UpdateStatsAtomicConcurrent?
    ensures RunWorkers(ctx, cfg, fn, ws).0 == Feed(ctx, cfg, fn, 0, Concat(ws)).0
    ensures RunWorkers(ctx, cfg, fn, ws).1 == Feed(ctx, cfg, fn, 0, Concat(ws)).1
    decreases |ws|
  {
    if |ws| > 0 {
      var init := ws[..|ws| - 1];
      var last := ws[|ws| - 1];
      RunIsFeed(ctx, cfg, fn, init);
      var u := Feed(ctx, cfg, fn, 0, Concat(init));
      var v := Feed(u.0, cfg, fn, 0, last);
      FeedAnyWorker(u.0, cfg, fn, |ws| - 1, 0, last);
      assert Concat(ws) == Concat(init) + last;
      FeedAppend(ctx, cfg, fn, 0, Concat(init), last);
    }
  }

  /** Under the concurrent routine each worker's packets land in its own
      partition: the reduction gains the sum and number of all processed
      packets, and the global average and count stay as they were. */
  lemma {:induction false} RunConcurrent(ctx: Context, cfg: Option<Config>, ws: seq<seq<nat>>)
    requires |ws| <= |ctx.cstat|
    ensures var r := RunWorkers(ctx, cfg, UpdateStatsAtomicConcurrent, ws).0;
            && Reduce(r.cstat).0 == Reduce(ctx.cstat).0 + Sum(Concat(ws))
            && Reduce(r.cstat).1 == Reduce(ctx.cstat).1 + |Concat(ws)|
            && r.stat.avgPktSize == ctx.stat.avgPktSize && r.stat.count == ctx.stat.count
    decreases |ws|
  {
    if |ws| > 0 {
      var init := ws[..|ws| - 1];
      var last := ws[|ws| - 1];
      RunConcurrent(ctx, cfg, init);
      var before := RunWorkers(ctx, cfg, UpdateStatsAtomicConcurrent, init).0;
      FeedConcurrent(before, cfg, |ws| - 1, last);
      SumAppend(Concat(init), last);
    }
  }

  /** Every update counts one packet, so a run counts every processed
      packet once. */
  lemma {:induction false} RunCounts(ctx: Context, cfg: Option<Config>, fn: UpdateFn, ws: seq<seq<nat>>)
    requires fn.UpdateStatsAtomicConcurrent? ==> |ws| <= |ctx.cstat|
    ensures TotalCount(RunWorkers(ctx, cfg, fn, ws).0) == TotalCount(ctx) + |Concat(ws)|
    decreases |ws|
  {
    if |ws| > 0 {
      var init := ws[..|ws| - 1];
      RunCounts(ctx, cfg, fn, init);
      FeedCounts(RunWorkers(ctx, cfg, fn, init).0, cfg, fn, |ws| - 1, ws[|ws| - 1]);
    }
  }

  /** After a run every queue is empty, so running again changes nothing
      and triggers no read. */
  lemma {:induction false} RunOnDrainedIsNoop(ctx: Context, cfg: Option<Config>, fn: UpdateFn, ws: seq<seq<nat>>)
    requires fn.UpdateStatsAtomicConcurrent? ==> |ws| <= |ctx.cstat|
    requires forall i :: 0 <= i < |ws| ==> ws[i] == []
    ensures RunWorkers(ctx, cfg, fn, ws) == (ctx, 0)
    decreases |ws|
  {
    if |ws| > 0 {
      RunOnDrainedIsNoop(ctx, cfg, fn, ws[..|ws| - 1]);
    }
  }

  /** The packet lists generated for workers `0 .. n - 1`, each in the order
      its worker will see it: reversed, since the queues are LIFO. */
  function GeneratedWork(n: nat, m: nat, gen: Generator): (ws: seq<seq<nat>>)
    ensures |ws| == n && forall i :: 0 <= i < n ==> ws[i] == Reverse(WorkerPackets(i, m, gen))
  {
    seq(n, i requires 0 <= i < n => Reverse(WorkerPackets(i, m, gen)))
  }

  /** There are `n * m` generated packets in all. */
  lemma {:induction false} GeneratedCount(n: nat, m: nat, gen: Generator)
    ensures |Concat(GeneratedWork(n, m, gen))| == n * m
    decreases n
  {
    if n > 0 {
      assert GeneratedWork(n, m, gen)[..n - 1] == GeneratedWork(n - 1, m, gen);
      GeneratedCount(n - 1, m, gen);
      MulSucc(m, n - 1);
    }
  }

  /** Freshly populated queues hold exactly the generated packets. */
  lemma PopulatedWork(pq: seq<Stack<nat>>, cfg: Config, gen: Generator)
    requires Acceptable(Some(cfg)) && Populated(pq, cfg, gen)
    ensures Work(pq[..cfg.maxThreads]) == GeneratedWork(cfg.maxThreads, Budget(cfg), gen)
  {
  }

  /** From a fresh `InitDatapath`, the run `RunDatapath` performs. */
  function InitThenRun(w: World, cfg: Option<Config>, gen: Generator): (r: (Context, nat))
    requires w.ctx.Some? && Acceptable(cfg) && ReadMatchesUpdate(cfg.value)
  {
    var w1 := InitDatapath(w, cfg, gen).0;
    RunWorkers(w1.ctx.value, cfg, UpdateOf(w1), Work(w1.pq[..cfg.value.maxThreads]))
  }

  /** `RunDatapath` can run after a successful `InitDatapath`, and runs the
      configured routine from a fresh context over every generated packet. */
  lemma InitThenRunIsRunOfGenerated(w: World, cfg: Option<Config>, gen: Generator)
    requires w.ctx.Some? && Acceptable(cfg) && ReadMatchesUpdate(cfg.value)
    ensures Runnable(InitDatapath(w, cfg, gen).0)
    ensures InitThenRun(w, cfg, gen)
            == RunWorkers(Init(cfg), cfg, cfg.value.updateStatsFn.value,
                          GeneratedWork(cfg.value.maxThreads, Budget(cfg.value), gen))
  {
    PopulatedWork(InitDatapath(w, cfg, gen).0.pq, cfg.value, gen);
  }

  /** After `InitDatapath` and a run, the stats have counted `MaxThreads *
      (MaxPkts / MaxThreads)` packets: every queued one, and fewer than
      `MaxThreads` short of `MaxPkts`. */
  lemma InitThenRunCounts(w: World, cfg: Option<Config>, gen: Generator)
    requires w.ctx.Some? && Acceptable(cfg) && ReadMatchesUpdate(cfg.value)
    ensures TotalCount(InitThenRun(w, cfg, gen).0) == cfg.value.maxThreads * Budget(cfg.value)
    ensures cfg.value.maxPkts - cfg.value.maxThreads < TotalCount(InitThenRun(w, cfg, gen).0) <= cfg.value.maxPkts
  {
    var n := cfg.value.maxThreads;
    var m := Budget(cfg.value);
    InitThenRunIsRunOfGenerated(w, cfg, gen);
    RunCounts(Init(cfg), cfg, cfg.value.updateStatsFn.value, GeneratedWork(n, m, gen));
    GeneratedCount(n, m, gen);
    BudgetBounds(cfg.value);
  }

  /** At most `MaxThreads - 1` packets of the budget are never queued. */
  lemma BudgetBounds(cfg: Config)
    requires Acceptable(Some(cfg))
    ensures cfg.maxPkts - cfg.maxThreads < cfg.maxThreads * Budget(cfg) <= cfg.maxPkts
  {
    var m := Budget(cfg);
    MulSucc(cfg.maxThreads, m);
    assert (m + 1) * cfg.maxThreads == cfg.maxThreads * (m + 1);
  }

  /** The packets `InitDatapath` queues, in the order they are processed. */
  function AllPackets(cfg: Config, gen: Generator): seq<nat>
    requires Acceptable(Some(cfg))
  {
    Concat(GeneratedWork(cfg.maxThreads, Budget(cfg), gen))
  }

  /** `cfg` with another update routine installed, together with the read
      pkg/datapath/pktstats_test.go configures for it. */
  function WithUpdate(cfg: Config, fn: UpdateFn): (r: Option<Config>)
    requires Acceptable(Some(cfg))
    ensures Acceptable(r) && ReadMatchesUpdate(r.value)
    ensures r.value.updateStatsFn == Some(fn) && r.value.getStatsFn == Some(PairedRead(fn))
    ensures r.value.maxThreads == cfg.maxThreads && r.value.maxPkts == cfg.maxPkts
    ensures r.value.getStatsFreq == cfg.getStatsFreq
  {
    Some(cfg.(updateStatsFn := Some(fn), getStatsFn := Some(PairedRead(fn))))
  }

  /** After `InitDatapath` and a run of the atomic routine, its read is the
      truncated mean of all queued packets. */
  lemma AtomicRunReadsMean(w: World, cfg: Config, gen: Generator)
    requires w.ctx.Some? && Acceptable(Some(cfg))
    ensures GetAveragePktSizeOf(InitThenRun(w, WithUpdate(cfg, UpdateStatsAtomic), gen).0) == Mean(AllPackets(cfg, gen))
  {
    var c := WithUpdate(cfg, UpdateStatsAtomic);
    InitThenRunIsRunOfGenerated(w, c, gen);
    RunIsFeed(Init(c), c, UpdateStatsAtomic, GeneratedWork(cfg.maxThreads, Budget(cfg), gen));
    AtomicReadIsMean(c, 0, AllPackets(cfg, gen));
  }

  /** After `InitDatapath` and a run of the map routine, the histogram's
      weighted mean is the truncated mean of all queued packets. */
  lemma MapRunReadsMean(w: World, cfg: Config, gen: Generator)
    requires w.ctx.Some? && Acceptable(Some(cfg))
    ensures var h := InitThenRun(w, WithUpdate(cfg, UpdateStatsMap), gen).0.smap;
            (|h| == 0 || Total(h) > 0) && HistMean(h) == Mean(AllPackets(cfg, gen))
  {
    var c := WithUpdate(cfg, UpdateStatsMap);
    InitThenRunIsRunOfGenerated(w, c, gen);
    RunIsFeed(Init(c), c, UpdateStatsMap, GeneratedWork(cfg.maxThreads, Budget(cfg), gen));
    MapReadIsMean(c, 0, AllPackets(cfg, gen));
  }

  /** After `InitDatapath` and a run of the concurrent routine, the guarded
      partition read is the truncated mean of all queued packets. */
  lemma ConcurrentRunReadsMean(w: World, cfg: Config, gen: Generator)
    requires w.ctx.Some? && Acceptable(Some(cfg))
    ensures var c := WithUpdate(cfg, UpdateStatsAtomicConcurrent);
            GetAveragePktSizeConcurrentGuarded(InitThenRun(w, c, gen).0, c) == Success(Mean(AllPackets(cfg, gen)))
  {
    var c := WithUpdate(cfg, UpdateStatsAtomicConcurrent);
    var ws := GeneratedWork(cfg.maxThreads, Budget(cfg), gen);
    InitThenRunIsRunOfGenerated(w, c, gen);
    RunConcurrent(Init(c), c, ws);
    var r := RunWorkers(Init(c), c, UpdateStatsAtomicConcurrent, ws).0;
    GuardedReadOfTotals(r, c, AllPackets(cfg, gen));
  }

  /** The atomic, map and concurrent strategies report the same average
      after the same run. */
  lemma StrategiesAgree(w: World, cfg: Config, gen: Generator)
    requires w.ctx.Some? && Acceptable(Some(cfg))
    ensures var atomic := GetAveragePktSizeOf(InitThenRun(w, WithUpdate(cfg, UpdateStatsAtomic), gen).0);
            var h := InitThenRun(w, WithUpdate(cfg, UpdateStatsMap), gen).0.smap;
            && (|h| == 0 || Total(h) > 0) && atomic == HistMean(h)
            && Success(atomic) == GetAveragePktSizeConcurrentGuarded(
                 InitThenRun(w, WithUpdate(cfg, UpdateStatsAtomicConcurrent), gen).0,
                 WithUpdate(cfg, UpdateStatsAtomicConcurrent))
  {
    AtomicRunReadsMean(w, cfg, gen);
    MapRunReadsMean(w, cfg, gen);
    ConcurrentRunReadsMean(w, cfg, gen);
  }

  /** From a fresh `InitDatapath`, with a non-concurrent routine and a
      sampling frequency of at least one, a run triggers one read per
      `GetStatsFreq` packets. */
  lemma InitThenRunSamples(w: World, cfg: Option<Config>, gen: Generator)
    requires w.ctx.Some? && Acceptable(cfg) && ReadMatchesUpdate(cfg.value)
    requires !cfg.value.updateStatsFn.value.UpdateStatsAtomicConcurrent? && cfg.value.getStatsFreq >= 1
    ensures InitThenRun(w, cfg, gen).1 == cfg.value.maxThreads * Budget(cfg.value) / cfg.value.getStatsFreq
  {
    var ws := GeneratedWork(cfg.value.maxThreads, Budget(cfg.value), gen);
    InitThenRunIsRunOfGenerated(w, cfg, gen);
    RunIsFeed(Init(cfg), cfg, cfg.value.updateStatsFn.value, ws);
    GeneratedCount(cfg.value.maxThreads, Budget(cfg.value), gen);
    SamplesFromInit(cfg, cfg.value.updateStatsFn.value, 0, Concat(ws));
  }

  /** With `GetStatsFreq() <= 0` every update of every worker triggers a
      read. */
  lemma {:induction false} RunSamplesEvery(ctx: Context, cfg: Option<Config>, fn: UpdateFn, ws: seq<seq<nat>>)
    requires fn.UpdateStatsAtomicConcurrent? ==> |ws| <= |ctx.cstat|
    requires GetStatsFreq(cfg) <= 0 && GetStatsFn(cfg).Some?
    requires ctx.stat.lastUpdateCount <= ctx.stat.count
    ensures RunWorkers(ctx, cfg, fn, ws).1 == |Concat(ws)|
    ensures RunWorkers(ctx, cfg, fn, ws).0.stat.lastUpdateCount <= RunWorkers(ctx, cfg, fn, ws).0.stat.count
    decreases |ws|
  {
    if |ws| > 0 {
      var n := |ws| - 1;
      var front := ws[..n];
      RunSamplesEvery(ctx, cfg, fn, front);
      var before := RunWorkers(ctx, cfg, fn, front);
      assert CanUpdate(before.0, fn, n);
      SamplesEveryUpdate(before.0, cfg, fn, n, ws[n]);
      var last := Feed(before.0, cfg, fn, n, ws[n]);
      assert RunWorkers(ctx, cfg, fn, ws).0 == last.0;
      assert RunWorkers(ctx, cfg, fn, ws).1 == before.1 + last.1;
      assert Concat(ws) == Concat(front) + ws[n];
    }
  }

  /** From a fresh `InitDatapath` with `GetStatsFreq() <= 0`, a run reads
      once per queued packet. */
  lemma InitThenRunSamplesEvery(w: World, cfg: Option<Config>, gen: Generator)
    requires w.ctx.Some? && Acceptable(cfg) && ReadMatchesUpdate(cfg.value)
    requires cfg.value.getStatsFreq <= 0
    ensures InitThenRun(w, cfg, gen).1 == cfg.value.maxThreads * Budget(cfg.value)
  {
    var ws := GeneratedWork(cfg.value.maxThreads, Budget(cfg.value), gen);
    InitThenRunIsRunOfGenerated(w, cfg, gen);
    RunSamplesEvery(Init(cfg), cfg, cfg.value.updateStatsFn.value, ws);
    GeneratedCount(cfg.value.maxThreads, Budget(cfg.value), gen);
  }

  /** Once `RunDatapath` has drained the queues, running it again changes
      nothing and triggers no read. */
  method RunTwice(w: World) returns (w1: World, w2: World, sampled: nat)
    requires Runnable(w)
    ensures w2.ctx == w1.ctx && sampled == 0
  {
    var first;
    w1, first := RunDatapath(w);
    var n := w.cfg.value.maxThreads;
    var ws := Work(w1.pq[..n]);
    assert forall i :: 0 <= i < n ==> ws[i] == Pending(Drain(w.pq[i])) == [];
    RunOnDrainedIsNoop(w1.ctx.value, w1.cfg, UpdateOf(w1), ws);
    w2, sampled := RunDatapath(w1);
  }
}
