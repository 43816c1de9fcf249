/** The static configuration of pkg/datapath/datapath.go: the strategy tag,
    the update/read function references (as tags; `None` is Go's `nil`), the
    sampling frequency and the worker/packet budget, plus its validation and
    the getters that read the installed configuration. */
module DpConfig {
  import opened Results

  /** `DatapathContextType` values. */
  const CtxMutex: int := 0
  const CtxAtomic: int := 1
  const CtxMap: int := 2
  const CtxConcurrent: int := 3

  /** The four update routines a configuration may reference. */
  datatype UpdateFn = UpdateStatsMutex | UpdateStatsAtomic | UpdateStatsMap | UpdateStatsAtomicConcurrent

  /** The three read routines a configuration may reference. */
  datatype ReadFn = GetAveragePktSize | GetAveragePktSizeMap | GetAveragePktSizeConcurrent

  datatype Config = Config(
    ctxType: int,
    updateStatsFn: Option<UpdateFn>,
    getStatsFn: Option<ReadFn>,
    getStatsFreq: int,
    maxThreads: int,
    maxPkts: int)

  datatype ConfigError =
    | NilConfig
    | InvalidCtxType(ctxType: int)
    | InvalidMaxPkts(maxPkts: int)
    | InvalidMaxThreads(maxThreads: int)
    | NilFunctions

  /** What a usable configuration must satisfy, stated as one conjunction. */
  predicate Acceptable(c: Option<Config>)
  {
    && c.Some?
    && CtxMutex <= c.value.ctxType <= CtxConcurrent
    && c.value.maxPkts > 1
    && c.value.maxThreads >= 1
    && c.value.updateStatsFn.Some?
    && c.value.getStatsFn.Some?
  }

  /** `validateConfig`: `None` (Go's nil error) exactly for an acceptable
      configuration; otherwise the error of the first check that fails. */
  function ValidateConfig(c: Option<Config>): (r: Option<ConfigError>)
    ensures r.None? <==> Acceptable(c)
    ensures r == Some(NilConfig) <==> c.None?
    ensures r.Some? && r.value.InvalidCtxType? ==> !(CtxMutex <= c.value.ctxType <= CtxConcurrent)
    ensures r.Some? && r.value.InvalidMaxPkts? ==> c.value.maxPkts <= 1
    ensures r.Some? && r.value.InvalidMaxThreads? ==> c.value.maxThreads < 1
    ensures r.Some? && r.value.NilFunctions? ==> c.value.updateStatsFn.None? || c.value.getStatsFn.None?
    ensures r.Some? && (r.value.InvalidMaxPkts? || r.value.InvalidMaxThreads? || r.value.NilFunctions?) ==>
              CtxMutex <= c.value.ctxType <= CtxConcurrent
    ensures r.Some? && (r.value.InvalidMaxThreads? || r.value.NilFunctions?) ==> c.value.maxPkts > 1
    ensures r.Some? && r.value.NilFunctions? ==> c.value.maxThreads >= 1
  {
    if c.None? then Some(NilConfig)
    else
      var cfg := c.value;
      if cfg.ctxType < CtxMutex || cfg.ctxType > CtxConcurrent then Some(InvalidCtxType(cfg.ctxType))
      else if cfg.maxPkts <= 1 then Some(InvalidMaxPkts(cfg.maxPkts))
      else if cfg.maxThreads < 1 then Some(InvalidMaxThreads(cfg.maxThreads))
      else if cfg.updateStatsFn.None? || cfg.getStatsFn.None? then Some(NilFunctions)
      else None
  }

  /** The smallest acceptable budget is two packets on one worker; one packet
      or zero workers is refused. */
  lemma ValidationBoundaries(u: UpdateFn, g: ReadFn, freq: int)
    ensures ValidateConfig(Some(Config(CtxMutex, Some(u), Some(g), freq, 1, 2))).None?
    ensures ValidateConfig(Some(Config(CtxMutex, Some(u), Some(g), freq, 1, 1))) == Some(InvalidMaxPkts(1))
    ensures ValidateConfig(Some(Config(CtxMutex, Some(u), Some(g), freq, 0, 2))) == Some(InvalidMaxThreads(0))
    ensures ValidateConfig(Some(Config(4, Some(u), Some(g), freq, 1, 2))) == Some(InvalidCtxType(4))
  {
  }

  /** `DatapathContextType.String`: indexes a four-element name array, so
      any other value panics in Go. */
  function CtxTypeString(t: int): (name: string)
    requires CtxMutex <= t <= CtxConcurrent
    ensures t == CtxMutex ==> name == "mutex"
    ensures t == CtxAtomic ==> name == "atomic"
    ensures t == CtxMap ==> name == "map"
    ensures t == CtxConcurrent ==> name == "concurrent"
  {
    ["mutex", "atomic", "map", "concurrent"][t]
  }

  /** Each context type has its own name. */
  lemma CtxTypeStringInjective(a: int, b: int)
    requires CtxMutex <= a <= CtxConcurrent && CtxMutex <= b <= CtxConcurrent
    ensures CtxTypeString(a) == CtxTypeString(b) <==> a == b
  {
  }

  /** The read each update routine is configured with in
      pkg/datapath/pktstats_test.go: the sum-based routines read the stat,
      the map routine the histogram, the concurrent routine the partitions. */
  function PairedRead(fn: UpdateFn): (g: ReadFn)
    ensures g == GetAveragePktSizeConcurrent <==> fn == UpdateStatsAtomicConcurrent
    ensures g == GetAveragePktSizeMap <==> fn == UpdateStatsMap
  {
    match fn
    case UpdateStatsMutex => GetAveragePktSize
    case UpdateStatsAtomic => GetAveragePktSize
    case UpdateStatsMap => GetAveragePktSizeMap
    case UpdateStatsAtomicConcurrent => GetAveragePktSizeConcurrent
  }

  /** The configured read cannot panic inside a run. The partition read
      divides by the partitions' total count, which only the partition
      update raises; `validateConfig` does not check this pairing. */
  predicate ReadMatchesUpdate(c: Config)
  {
    c.getStatsFn == Some(GetAveragePktSizeConcurrent) ==> c.updateStatsFn == Some(UpdateStatsAtomicConcurrent)
  }

  function GetCtxType(c: Option<Config>): int
  {
    if c.None? then 0 else c.value.ctxType
  }

  function GetStatsFreq(c: Option<Config>): int
  {
    if c.None? then 0 else c.value.getStatsFreq
  }

  function GetStatsFn(c: Option<Config>): Option<ReadFn>
  {
    if c.None? then None else c.value.getStatsFn
  }

  function GetMaxThreads(c: Option<Config>): int
  {
    if c.None? then 0 else c.value.maxThreads
  }

  function GetMaxPkts(c: Option<Config>): int
  {
    if c.None? then 0 else c.value.maxPkts
  }
}
