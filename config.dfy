/** Configuration of config.go: option-or-default selection and the defaults. */
module Configuration {
  import opened Wrappers
  import opened Tsq
  import opened Retention

  /** A job store as configuration refers to it; only its kind matters here. */
  datatype StoreChoice = MemoryStore | SQLiteStore | OtherStore(id: int)

  /** `Config`; `None` stands for a nil store or a nil strategy. */
  datatype Config = Config(
    queueLength: int,
    jobStore: Option<StoreChoice>,
    cleanInterval: int,
    cleanStrategy: Option<CleanStrategy>)

  const DefaultMaxAge: int := 7 * 24 * Hour

  const DefaultConfig: Config := Config(10, Some(MemoryStore), 24 * Hour, Some(TimeBased(DefaultMaxAge)))

  /** The configured store, or else the default configuration's in-memory store. */
  function GetJobStore(c: Config): (store: StoreChoice)
    ensures c.jobStore.Some? ==> store == c.jobStore.value
    ensures c.jobStore.None? ==> store == DefaultConfig.jobStore.value && store == MemoryStore
  {
    if c.jobStore.Some? then c.jobStore.value else DefaultConfig.jobStore.value
  }

  /** The configured strategy, or else the default one-week time window. */
  function GetCleanStrategy(c: Config): (s: CleanStrategy)
    ensures c.cleanStrategy.Some? ==> s == c.cleanStrategy.value
    ensures c.cleanStrategy.None? ==> s == DefaultConfig.cleanStrategy.value && s == TimeBased(7 * 24 * Hour)
  {
    if c.cleanStrategy.Some? then c.cleanStrategy.value else DefaultConfig.cleanStrategy.value
  }

  /** The fields `NewQueue` initialises, as config.go names them. */
  datatype QueueFields = QueueFields(
    tasks: map<string, Runner>,
    queueCapacity: int,
    jobStore: StoreChoice,
    cleanInterval: int,
    cleaner: CleanStrategy)

  /**
   * `NewQueue`: an empty registry, the queue length and clean interval copied
   * as given (a zero stays zero), store and strategy defaulted when nil. A
   * negative queue length is a channel capacity `make` refuses.
   */
  function NewQueue(c: Config): (q: QueueFields)
    requires c.queueLength >= 0
    ensures q.tasks == map[]
    ensures q.queueCapacity == c.queueLength && q.cleanInterval == c.cleanInterval
    ensures q.jobStore == GetJobStore(c) && q.cleaner == GetCleanStrategy(c)
  {
    QueueFields(map[], c.queueLength, GetJobStore(c), c.cleanInterval, GetCleanStrategy(c))
  }

  /** The defaults: ten slots, a daily sweep, the memory store, a one-week window. */
  lemma DefaultValues()
    ensures DefaultConfig.queueLength == 10
    ensures DefaultConfig.cleanInterval == 86_400_000_000_000
    ensures GetJobStore(DefaultConfig) == MemoryStore
    ensures GetCleanStrategy(DefaultConfig) == TimeBased(604_800_000_000_000)
  {
  }

  /**
   * A queue built from a configuration that leaves the strategy nil keeps
   * exactly the jobs updated less than a week before the sweep.
   */
  lemma DefaultStrategyKeepsOneWeek(c: Config, job: JobRecord, now: int)
    requires c.queueLength >= 0 && c.cleanStrategy.None?
    ensures ShouldKeep(NewQueue(c).cleaner, job, now) <==> now - job.updated < 7 * 24 * Hour
  {
  }
}
