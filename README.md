# tsq: a verified model of an in-process job queue

This project is a Dafny model of the sequential core of `tsq`, a Go library for
running named tasks in the background. Callers `Define` a runner under a name
and `Submit` jobs. A single worker runs the jobs one at a time, moving each
through PENDING, RUNNING and then SUCCESS or FAILURE, and records its result.
A cleaner sweeps old jobs out of a job store. A SQL-backed store applies
schema migrations, each at most once, and every pending one up to the first failure.

Time is an integer count of nanoseconds, the unit of Go's `time.Duration`.
Every reading of the clock is a parameter (`now`, `start`, `finish`). So is
every fresh identifier: `Submit` receives what the UUID generator returned,
as a `Result`, so a generator failure can be modelled. The worker's channel is
a FIFO sequence (`TaskQueue.queued`). `ProcessNext` takes the oldest job from
it and runs that job to completion.

Modules follow the Go files:

- `Tsq` (tsq.go): `Status`, `Value`, `RunOutcome`, `Runner` and the `Job` class, plus the
  first-match lookup that both job lists use.
- `Retention` (cleaner.go): the clean strategies and `ShouldKeep`. It also holds `KeptJobs`, the
  order-preserving filter that every sweep is an instance of.
- `Stores` (memorystore.go, plus the `Cleaner` class of cleaner.go). The store and its cleaner
  refer to each other, so they live in one module.
- `TaskQueues` (taskqueue.go), `Migrations` (migrations.go), `SQLite` (sqlitestore.go) and
  `Configuration` (config.go).
- `Scenarios`: the situations taskqueue_test.go checks, and two sweep examples.

`Job` is a class because the Go code shares `*Job` pointers. The worker writes
status and result into the same record that the submitter holds and that
`GetJob` returns. Only `status`, `result` and `updated` are ever assigned after
construction, so the other four fields are `const`. The `JobRecord` datatype is
the value of a `Job` struct. This is what `readJob` returns and what
`Job.Record()` snapshots.

The files come from different revisions, and the model follows each file as written:

- config.go's `NewQueue` fills fields (`tasks`, `jobStore`, `cleaner`, `cleanInterval`) that
  taskqueue.go's `TaskQueue` does not have. `Configuration.NewQueue` therefore returns its own
  record of those fields rather than a `TaskQueue`.
- In taskqueue.go the queue keeps its own `Jobs` list and does not go through a job store.
  The model keeps that list as `TaskQueue.jobs`.
- `Submit` generates the identifier before it checks the task name (taskqueue.go:22-26). A
  generator failure is therefore reported even for an unknown name
  (`Scenarios.IdentifierFailureWins`).
- The queue's own `clean` (taskqueue.go:91-102) filters on age alone. Unlike the memory store's
  `Clean`, it can drop a PENDING or RUNNING job, and `TaskQueues.QueueSweepMembers` states
  exactly which jobs survive. It also measures `MaxAge` in seconds (`MaxAge * time.Second`),
  while the time-based strategy of cleaner.go uses `MaxAge` as a plain duration.
- `HasFinished` is not part of this model's sources. It is defined as status SUCCESS or
  FAILURE, the test that server.go:208 uses.

## Model

| member | source | states |
|---|---|---|
| `Tsq.StatusOf` | tsq.go:21-26 | exactly the four constant strings name a status, and each names the status whose text it is |
| `Tsq.StatusTextRoundTrip` | tsq.go:21-26 | reading a status's text back gives that status, so the four constants are pairwise distinct |
| `Tsq.StatusTextsDistinct` | tsq.go:21-26 | the four status texts form a set of exactly four strings |
| `Tsq.Job.constructor` | tsq.go:11-19 | a job carries exactly uuid, name, status, arguments, result, created and updated, as given |
| `Tsq.Job.SetStatus` | taskqueue.go:86-89 | a status change sets the status and stamps `updated` with the time of the change; result and every other field are untouched |
| `Tsq.FirstMatch` | taskqueue.go:46-54 | the index found holds the identifier and no earlier job does; when nothing is found, no job has it |
| `Tsq.FirstMatchAppended` | taskqueue.go:39-54 | a job appended under an identifier no earlier job has is the one a lookup of that identifier finds |
| `Tsq.Job.HasFinished` | memorystore.go:77 | a job has finished exactly when its status is SUCCESS or FAILURE, the test server.go:208 uses |
| `Tsq.FindJob` | memorystore.go:43-51 | the scan returns the first job with the identifier, or nil with "Job <uuid> not found" |
| `Retention.ShouldKeep` | cleaner.go:58-61 | the time-based strategy keeps a job exactly when its age at `now` is below `MaxAge` (updated strictly after now − MaxAge) |
| `Retention.ZeroMaxAgeKeepsNothingPast` | cleaner.go:58-61 | with MaxAge 0 no job updated at or before `now` is kept |
| `Retention.ShouldKeepMonotone` | cleaner.go:58-61 | a job kept under a maximum age is kept under any larger one |
| `Retention.OneHourWindow` | cleaner.go:58-61 | with a one-hour window a job 30 minutes old is kept and one 2 hours old is not |
| `Retention.Retain` | memorystore.go:77 | the memory store's rule: an unfinished job always survives, and a finished one survives exactly when the strategy keeps it |
| `Retention.UpdatedAfter` | taskqueue.go:96 | the queue's rule: a job survives exactly when it was updated strictly after the limit, whatever its status |
| `Retention.KeptJobs` | memorystore.go:75-81 | a sweep never grows the list |
| `Retention.KeptJobsAppend` | memorystore.go:76-80 | handling one more job extends the survivors by that job exactly when it is kept (what each loop iteration does) |
| `Retention.KeptJobsMembers` | memorystore.go:76-80 | a job survives a sweep if and only if it was in the list and the rule keeps it |
| `Retention.KeptJobsSubsequence` | memorystore.go:75-81 | the survivors are a subsequence of the list: their relative order is kept |
| `Retention.KeptJobsIdempotent` | memorystore.go:72-82 | sweeping twice with the same rule on the same records equals sweeping once |
| `Retention.RetainSparesUnfinished` | memorystore.go:77 | whatever the strategy decides, no PENDING or RUNNING job is ever evicted by the store |
| `Retention.ZeroMaxAgeSweep` | memorystore.go:72-82 | a MaxAge-0 sweep over jobs updated no later than `now` keeps exactly the unfinished ones |
| `Stores.CleanedMemoryStore.constructor` | memorystore.go:15-21 | a new store is empty, and its cleaner targets that store with the given interval and a time-based strategy of the given age |
| `Stores.CleanedMemoryStore.Store` | memorystore.go:32-37 | the job is appended at the end, earlier entries are unchanged, and no error is reported |
| `Stores.CleanedMemoryStore.GetJobs` | memorystore.go:39-41 | the list is returned as stored, in insertion order, with no error |
| `Stores.CleanedMemoryStore.GetJob` | memorystore.go:43-51 | the first entry with the identifier is returned; otherwise "Job <uuid> not found" |
| `Stores.CleanedMemoryStore.SetStatus` | memorystore.go:53-61 | only the first matching job is writable; its status and update time become the given ones and its result stays; an absent identifier gives the not-found error and changes nothing |
| `Stores.CleanedMemoryStore.SetResult` | memorystore.go:63-70 | only the first matching job's result changes; an absent identifier gives the not-found error and changes nothing |
| `Stores.CleanedMemoryStore.Clean` | memorystore.go:72-82 | the new list is exactly the old jobs that are unfinished or kept by the strategy, in order |
| `Stores.Cleaner.constructor` | cleaner.go:21-28 | the cleaner records exactly the given store, interval and strategy |
| `Stores.Cleaner.Clean` | cleaner.go:50-52 | one sweep of the target store with the cleaner's own strategy, and nothing else |
| `TaskQueues.FinalStatus` | taskqueue.go:76-83 | a run always ends in a terminal status, FAILURE exactly when the runner returned an error |
| `TaskQueues.StoredResult` | taskqueue.go:75-79 | the runner's non-nil result is always kept; a failure with no result stores the error's message; the stored result is nil only for a nil result without error |
| `TaskQueues.TaskQueue.constructor` | taskqueue.go:9-16 | a queue starts with no tasks, no jobs and nothing queued, and satisfies the worker invariant |
| `TaskQueues.TaskQueue.Define` | taskqueue.go:18-20 | binds name to runner, replacing an earlier binding; every other binding, the job list and the FIFO are unchanged |
| `TaskQueues.TaskQueue.Submit` | taskqueue.go:22-37 | a generator failure is returned first; an unknown name gives "Unknown task: <name>" and no change; otherwise exactly one fresh PENDING job with the arguments, nil result and created = updated = now is appended to the list and to the FIFO |
| `TaskQueues.TaskQueue.Add` | taskqueue.go:39-44 | the job is appended at the end of the list |
| `TaskQueues.TaskQueue.GetJob` | taskqueue.go:46-54 | the first job with the identifier, the same object that was submitted; otherwise "Job <uuid> not found" |
| `TaskQueues.TaskQueue.Run` | taskqueue.go:72-84 | the runner sees the job RUNNING and stamped with the start time; afterwards the status is terminal per the error, the result is per `StoredResult`, and the update time is the finish time; only that job is touched |
| `TaskQueues.TaskQueue.ProcessNext` | taskqueue.go:56-62 | the oldest queued job is taken and run to completion, and its runner sees it RUNNING since the start time; the rest of the FIFO is untouched and stays PENDING, so jobs run one at a time in submission order |
| `TaskQueues.TaskQueue.Clean` | taskqueue.go:91-102 | the new job list is exactly the old jobs updated strictly after now − MaxAge seconds, in order, finished or not |
| `TaskQueues.QueueSweepMembers` | taskqueue.go:95-99 | a job survives the queue's sweep if and only if it was updated after the limit; being unfinished does not protect it |
| `Migrations.HasRun` | migrations.go:16-28 | no row means not run yet; a row recorded true means already run; a row recorded false is the error "Migration <v> failed before. Manual cleanup required" |
| `Migrations.SetStatus` | migrations.go:30-33 | for a version that has no row yet, the row is inserted with the given status and every other row is kept |
| `Migrations.RunFrom` | migrations.go:53-67 | the loop over the registered migrations once the version table exists: skip a version recorded true, stop with "failed before" at one recorded false, otherwise log and execute it, record false and stop on its error or record true and go on; at most one log line per migration |
| `Migrations.RunAll` | migrations.go:44-69 | a failure to create the version table is returned before any migration is looked at, with nothing changed; otherwise the run is the loop over the registered migrations |
| `Migrations.Migrations.constructor` | migrations.go:40-42 | nothing is registered at first |
| `Migrations.Migrations.Register` | migrations.go:71-73 | migrations are appended in call order |
| `Migrations.Migrations.Run` | migrations.go:44-69 | the loop computes exactly the error, final table and log (`RunAll`) of visiting the migrations in order |
| `Migrations.RunKeepsRecords` | migrations.go:53-67 | a run only adds rows: no recorded outcome is ever rewritten |
| `Migrations.RunLogsRecorded` | migrations.go:53-67 | executions appear in registration order, and every executed migration is recorded in the table the run leaves |
| `Migrations.SuccessRecordsAll` | migrations.go:58-68 | after a successful run every registered migration is recorded as succeeded |
| `Migrations.AllRecordedRunsNothing` | migrations.go:54-58 | when every migration is already recorded true, a run executes nothing and succeeds |
| `Migrations.RunIdempotent` | migrations.go:44-69 | a second run after a successful one executes nothing, changes nothing and succeeds |
| `Migrations.RecordedFailureBlocks` | migrations.go:24-57 | a migration recorded false makes the run fail, and the executions logged are a subsequence of the migrations before it: nothing from that migration on is executed |
| `Migrations.RecordedFailureMessage` | migrations.go:24-57 | when every migration before one recorded false is recorded true, the run fails with "Migration <v> failed before. Manual cleanup required", executes nothing and changes nothing |
| `Migrations.SuccessExecutesPending` | migrations.go:53-67 | after a successful run, every registered migration that had no row has been executed |
| `Migrations.RunSplits` | migrations.go:53-67 | a run that gets past its first k migrations is the run of those k followed by the run of the rest on the table they left |
| `Migrations.ExecutionFailureStops` | migrations.go:58-64 | when a migration with no row fails after those before it got through, executed in this run or recorded earlier, it is recorded false, its error is returned, the log ends with it, and nothing after it is attempted |
| `Migrations.RunExecutesOnce` | migrations.go:16-67 | within one run no version executes twice, even when versions repeat, and nothing already recorded executes |
| `Migrations.AtMostOnceOverall` | migrations.go:16-67 | no migration executed in a run, successful or failed, executes again in any later run |
| `SQLite.ToNullString` | sqlitestore.go:152-154 | the column is non-NULL if and only if the text is non-empty, and it carries the text |
| `SQLite.Encode` | sqlitestore.go:127-135 | nil encodes to "" with no error, without the codec; other values go through the codec |
| `SQLite.Decode` | sqlitestore.go:137-150 | NULL decodes to ""; text whose JSON is null decodes to ""; a successful decode is never nil; codec errors are passed on |
| `SQLite.EncodeRow` | sqlitestore.go:52-65 | a row is produced exactly when both encodings succeed, carrying the job's fields and the encoded arguments and result as nullable columns; nil is written as NULL; an encoding error of the arguments, then of the result, is returned and no row is written |
| `SQLite.EncodeResult` | sqlitestore.go:95-102 | a nil result is written as NULL; any other result is written as its encoding, or its encoding error is returned |
| `SQLite.ReadJob` | sqlitestore.go:108-125 | a row reads back exactly when both columns decode, with its fields and the decoded arguments and result, neither ever nil; an argument decoding error is returned first, then a result decoding error |
| `SQLite.ValueRoundTrip` | sqlitestore.go:127-150 | with a codec that round-trips strings and never emits empty text, a string or nil always encodes, and decoding gives the string back and nil as "" |
| `SQLite.RowRoundTrip` | sqlitestore.go:52-125 | a job whose arguments and result are strings or nil can be stored, and reading its row gives the same job, except that nil comes back as "" |
| `SQLite.ResultRoundTrip` | sqlitestore.go:95-150 | a string or nil result written by `SetResult` reads back as the same string, or "" for nil |
| `SQLite.Start` | sqlitestore.go:33-46 | open and ping errors are returned before anything else; otherwise exactly one migration, "V1__001_CreateJobDB", is registered and run |
| `SQLite.StartOnFreshDatabase` | sqlitestore.go:42-44 | on an empty version table the job table is created once and recorded; a second start after success does nothing, and one after failure refuses |
| `Configuration.GetJobStore` | config.go:23-30 | the configured store when set, otherwise the default configuration's memory store |
| `Configuration.GetCleanStrategy` | config.go:32-39 | the configured strategy when set, otherwise the default configuration's one-week time window |
| `Configuration.NewQueue` | config.go:12-21 | for a non-negative queue length: an empty task registry; queue length and clean interval copied as given, zero included; store and strategy defaulted |
| `Configuration.DefaultValues` | config.go:41-46 | the defaults are queue length 10, clean interval 24 h, the memory store and a 7×24 h time-based strategy |
| `Configuration.DefaultStrategyKeepsOneWeek` | config.go:32-46 | with no strategy configured, a job is kept exactly when it was updated less than a week before the sweep |
| `Scenarios.NewTestQueue` | taskqueue_test.go:62-68 | the test queue has only the task "test" and no jobs |
| `Scenarios.UndefinedTask` | taskqueue_test.go:70-76 | submitting "notest" fails with "Unknown task: notest" |
| `Scenarios.IdentifierFailureWins` | taskqueue.go:22-26 | when the identifier generator fails, its error is returned even for an unknown name |
| `Scenarios.SuccessWithReturnValue` | taskqueue_test.go:78-118 | a passing run ends SUCCESS with result "DATA" |
| `Scenarios.FailureKeepsReason` | taskqueue_test.go:88-97 | a run that fails with "ERROR" and no result ends FAILURE with result "ERROR" |
| `Scenarios.JobsAreSerialized` | taskqueue_test.go:99-133 | while the first job runs (and is seen RUNNING by its runner), the second is still PENDING; both later succeed |
| `Scenarios.JobsAreStored` | taskqueue_test.go:135-144 | `GetJob` returns the very job object `Submit` returned |
| `Scenarios.GetUnknownJob` | taskqueue_test.go:146-155 | looking up "foo" fails with "Job foo not found" |
| `Scenarios.MaxAgeZeroScenario` | memorystore.go:72-82 | a MaxAge-0 sweep removes the finished job and keeps the running one |
| `Scenarios.OneHourScenario` | cleaner.go:58-61 | a one-hour sweep keeps the job updated 30 minutes ago and drops the one updated 2 hours ago |

## Left out

- Goroutines, channels, mutexes and tickers are not modelled. This covers `TaskQueue.Start`, `Cleaner.Start`/`Stop`, the memory store's `Start`/`Stop` and `jobMutex`. The model is sequential: the worker is `ProcessNext` and a sweep is one call.
- The channel's capacity is not modelled, so `Submit` never blocks. In Go, `Submit` blocks on a full channel (taskqueue.go:32), and the capacity comes from config.go's `QueueLength`.
- The `Start` goroutine's sleep of `CleanInterval * time.Second` is not modelled.
- `time.Now` becomes explicit instants. A Go sweep reads the clock once per job inside `ShouldKeep`; a model sweep uses a single `now`.
- `newUUID` becomes a parameter. As in the source, nothing makes identifiers unique, and lookups return the first match.
- Durations and instants are unbounded integers. The int64 overflow of `MaxAge * time.Second` and of `time.Time` arithmetic is not modelled.
- Runners are pure functions of their arguments. Runners with side effects, such as the test runner's channels and waiting, and runners that panic, are not modelled.
- `TaskQueues.TaskQueue.Run`: requires the job's task to be defined. In Go an undefined task means a call through a nil runner, which panics. The worker invariant `Valid()` guarantees the name for every queued job.
- Status is an enumeration of the four constants. Go stores a string, and status strings other than the four constants cannot be represented.
- The `JobStore`, `Cleanable` and `CleanStrategy` interfaces exist only through their implementations, because Dafny traits are not used.
  - `JobStore`'s contract (tsq.go:28-33) shows only in the memory store's methods: `Store` and `GetJobs` report no error, and `GetJob` can fail.
  - `Cleaner.store` is typed as the memory store, the only `Cleanable` here. sqlitestore.go has no `Clean`.
  - `CleanStrategy` is a datatype: the time-based variant or any pure decision. tsq.go:35 and cleaner.go:9 both declare it.
- The SQL layer is not modelled. This covers the tables themselves, `GetJobs`'s `ORDER BY created desc`, `GetJob` and `SetStatus` as SQL statements, `Scan` errors, query errors in `hasRun`, and `Stop`.
  - Only the mapping between values and nullable columns is modelled.
  - `setStatus` is only reached for a version with no row, and its insert is taken to succeed. Go ignores the insert's error (migrations.go:62, 65), so a failed insert would leave no row, which the model does not represent.
  - `log.Println` is returned as the `log` lines.
- The JSON encoder and decoder are an abstract `Codec`. The round-trip lemmas assume two things about it (`NonEmptyEncoding`, `StringsRoundTrip`) rather than proving them.
- SQLite.RowRoundTrip: stated only for string and nil arguments and results. Decoding into `interface{}` turns numbers into `float64`, structs (such as the test's `*TestRun`) into `map[string]interface{}` and slices into `[]interface{}`, so other values (`Data`) do not come back as they were stored; for them the model only says that `ReadJob` returns whatever the codec decodes.
- Configuration.NewQueue: requires a non-negative queue length. In Go, `make(chan *Job, config.QueueLength)` (config.go:15) panics at run time on a negative length, and panics are not modelled.
- `DefaultConfig` is a constant. In Go it is a package-level `var` (config.go:41), and a program that reassigns it changes what `getJobStore` and `getCleanStrategy` return for nil fields; the model fixes the values of config.go:41-46.
- `NewMemoryStore` (config.go:43) is not part of this model. A configured store is only a `StoreChoice`.
- Not modelled: server.go (HTTP, including the nil dereference of `job.UUID` at server.go:201 on timeout), commandtask.go (subprocesses) and the example programs.
