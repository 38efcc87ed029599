/**
 * The situations taskqueue_test.go exercises, and two sweeps of the memory
 * store's cleaner, replayed on the model with explicit identifiers and instants.
 */
module Scenarios {
  import opened Wrappers
  import opened Tsq
  import opened Retention
  import opened Stores
  import opened TaskQueues

  /**
   * The test task: arguments `Data(1)` stand for a run told to fail, which
   * returns the error "ERROR" and no result; any other run returns "DATA".
   */
  const TestTask: Runner := Runner((args: Value) =>
    if args == Data(1) then RunOutcome(Nil, Some("ERROR")) else RunOutcome(Str("DATA"), None))

  const FailingRun: Value := Data(1)
  const PassingRun: Value := Data(0)

  method NewTestQueue() returns (q: TaskQueue)
    ensures fresh(q) && q.Valid()
    ensures q.tasks == map["test" := TestTask] && q.jobs == [] && q.queued == []
  {
    q := new TaskQueue(0, 0);
    q.Define("test", TestTask);
  }

  method UndefinedTask() returns (err: Option<string>)
    ensures err == Some("Unknown task: notest")
  {
    var q := NewTestQueue();
    var job;
    assert "notest" != "test";
    job, err := q.Submit("notest", PassingRun, Ok("id-1"), 0);
    assert UnknownTask("notest") == "Unknown task: notest";
  }

  /** A generator failure is reported even for a name that is not defined. */
  method IdentifierFailureWins() returns (err: Option<string>)
    ensures err == Some("no entropy")
  {
    var q := NewTestQueue();
    var job;
    job, err := q.Submit("notest", PassingRun, Err("no entropy"), 0);
  }

  method SuccessWithReturnValue() returns (status: Status, result: Value)
    ensures status == Status.Success && result == Str("DATA")
  {
    var q := NewTestQueue();
    var job, _ := q.Submit("test", PassingRun, Ok("id-1"), 0);
    var ran, observed := q.ProcessNext(1, 2);
    status, result := job.status, job.result;
  }

  method FailureKeepsReason() returns (status: Status, result: Value)
    ensures status == Status.Failure && result == Str("ERROR")
  {
    var q := NewTestQueue();
    var job, _ := q.Submit("test", FailingRun, Ok("id-1"), 0);
    var ran, observed := q.ProcessNext(1, 2);
    status, result := job.status, job.result;
  }

  /**
   * Two jobs submitted back to back: the worker takes the first, which the
   * runner sees RUNNING, while the second is still PENDING and still queued.
   * The second job's status is read after the first `ProcessNext` returns;
   * it is its status during the run because `ProcessNext` may modify only
   * the FIFO and the job at its head, so the second job cannot change.
   */
  method JobsAreSerialized() returns (ghost seenByRunner: Status, secondWhileFirstRuns: Status, first: Status, second: Status)
    ensures seenByRunner == Running && secondWhileFirstRuns == Pending
    ensures first == Status.Success && second == Status.Success
  {
    var q := NewTestQueue();
    var job1, _ := q.Submit("test", PassingRun, Ok("id-1"), 0);
    var job2, _ := q.Submit("test", PassingRun, Ok("id-2"), 0);
    assert q.queued == [job1, job2];
    var ran, observed := q.ProcessNext(1, 2);
    seenByRunner := observed.status;
    secondWhileFirstRuns := job2.status;
    var next, observedNext := q.ProcessNext(3, 4);
    first, second := job1.status, job2.status;
  }

  method JobsAreStored() returns (submitted: Job?, found: Job?)
    ensures submitted != null && found == submitted
  {
    var q := NewTestQueue();
    var err;
    submitted, err := q.Submit("test", PassingRun, Ok("id-1"), 0);
    var ran, observed := q.ProcessNext(1, 2);
    FirstMatchAppended([], submitted);
    found, err := q.GetJob("id-1");
  }

  method GetUnknownJob() returns (err: Option<string>)
    ensures err == Some("Job foo not found")
  {
    var q := NewTestQueue();
    var job, _ := q.Submit("test", PassingRun, Ok("id-1"), 0);
    var ran, observed := q.ProcessNext(1, 2);
    assert q.jobs == [job] && job.uuid == "id-1" != "foo";
    job, err := q.GetJob("foo");
    assert NotFound("foo") == "Job foo not found";
  }

  /** A sweep with maximum age zero removes the finished job and spares the running one. */
  method MaxAgeZeroScenario() returns (running: Job, kept: seq<Job>)
    ensures kept == [running]
  {
    var store := new CleanedMemoryStore(Hour, 0);
    var done := new Job("a", "test", Status.Success, Nil, Str("DATA"), 0, 5);
    running := new Job("b", "test", Running, Nil, Nil, 0, 5);
    var _ := store.Store(done);
    var _ := store.Store(running);
    assert store.jobs == [done, running];
    store.cleaner.Clean(10);
    kept := store.jobs;
  }

  /** With a one-hour window, a job half an hour old survives and one two hours old does not. */
  method OneHourScenario() returns (recent: Job, kept: seq<Job>)
    ensures kept == [recent]
  {
    var now := 3 * Hour;
    var store := new CleanedMemoryStore(Hour, Hour);
    var stale := new Job("a", "test", Status.Success, Nil, Nil, 0, now - 2 * Hour);
    recent := new Job("b", "test", Status.Failure, Nil, Nil, 0, now - 30 * Minute);
    var _ := store.Store(stale);
    var _ := store.Store(recent);
    assert store.jobs == [stale, recent];
    store.cleaner.Clean(now);
    kept := store.jobs;
  }
}
