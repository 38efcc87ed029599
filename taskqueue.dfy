/**
 * The task queue of taskqueue.go: a registry of runners, the list of submitted
 * jobs, and the FIFO of jobs waiting for the single worker.
 */
module TaskQueues {
  import opened Wrappers
  import opened Tsq
  import opened Retention

  /** The error `Submit` reports for a name that was never defined. */
  function UnknownTask(name: string): string {
    "Unknown task: " + name
  }

  /** The terminal status a run ends in: FAILURE exactly when the runner reported an error. */
  function FinalStatus(o: RunOutcome): (s: Status)
    ensures s.Finished()
    ensures s == Status.Failure <==> o.err.Some?
  {
    if o.err.Some? then Status.Failure else Status.Success
  }

  /**
   * The result a run stores. The runner's own result is always kept; a failure
   * without one stores the error's description, so a failed job never has a nil result.
   */
  function StoredResult(o: RunOutcome): (v: Value)
    ensures o.result != Nil ==> v == o.result
    ensures v == Nil <==> o.result == Nil && o.err.None?
    ensures o.result == Nil && o.err.Some? ==> v == Str(o.err.value)
  {
    if o.err.Some? && o.result == Nil then Str(o.err.value) else o.result
  }

  class TaskQueue {
    var tasks: map<string, Runner>
    /** Every submitted job, in submission order, until a sweep drops it. */
    var jobs: seq<Job>
    /** The buffered channel of jobs not yet taken by the worker, oldest first. */
    var queued: seq<Job>
    var cleanInterval: int
    var maxAge: int

    /**
     * The worker's invariant: every job waiting in the FIFO is a distinct,
     * still PENDING job of a defined task.
     */
    ghost predicate Valid()
      reads this, queued
    {
      && (forall i, k :: 0 <= i < k < |queued| ==> queued[i] != queued[k])
      && (forall j :: j in queued ==> j.status == Pending && j.name in tasks)
    }

    constructor (cleanInterval: int, maxAge: int)
      ensures Valid()
      ensures tasks == map[] && jobs == [] && queued == []
      ensures this.cleanInterval == cleanInterval && this.maxAge == maxAge
    {
      tasks := map[];
      jobs := [];
      queued := [];
      this.cleanInterval := cleanInterval;
      this.maxAge := maxAge;
    }

    /** Binds `name` to `r`, replacing any earlier binding; touches nothing else. */
    method Define(name: string, r: Runner)
      requires Valid()
      modifies this`tasks
      ensures Valid()
      ensures tasks == old(tasks)[name := r]
    {
      tasks := tasks[name := r];
    }

    /**
     * Submits a job. `id` is what the identifier generator produced; it is
     * consulted first, so its failure wins over an unknown name.
     */
    method Submit(name: string, arguments: Value, id: Result<string, string>, now: int)
      returns (job: Job?, err: Option<string>)
      requires Valid()
      modifies this`jobs, this`queued
      ensures Valid()
      ensures id.Err? ==>
                job == null && err == Some(id.error) && jobs == old(jobs) && queued == old(queued)
      ensures id.Ok? && name !in tasks ==>
                job == null && err == Some(UnknownTask(name)) && jobs == old(jobs) && queued == old(queued)
      ensures id.Ok? && name in tasks ==>
                && err == None && job != null && fresh(job)
                && job.Record() == JobRecord(id.value, name, Pending, arguments, Nil, now, now)
                && jobs == old(jobs) + [job]
                && queued == old(queued) + [job]
    {
      if id.Err? {
        return null, Some(id.error);
      }
      if name in tasks {
        job := new Job(id.value, name, Pending, arguments, Nil, now, now);
        Add(job);
        queued := queued + [job];
        return job, None;
      }
      return null, Some(UnknownTask(name));
    }

    /** Appends to the job list. */
    method Add(job: Job)
      modifies this`jobs
      ensures jobs == old(jobs) + [job]
    {
      jobs := jobs + [job];
    }

    /** The first job with that identifier, or the not-found error. */
    method GetJob(uuid: string) returns (job: Job?, err: Option<string>)
      ensures FirstMatch(jobs, uuid).Some? ==> job == jobs[FirstMatch(jobs, uuid).value] && err == None
      ensures FirstMatch(jobs, uuid).None? ==> job == null && err == Some(NotFound(uuid))
    {
      job, err := FindJob(jobs, uuid);
    }

    /**
     * Runs one job: RUNNING at `start`, then the runner on the job's arguments,
     * then the terminal status at `finish`. `observed` is the job as the runner
     * finds it when it is invoked.
     */
    method Run(job: Job, start: int, finish: int) returns (ghost observed: JobRecord)
      requires job.name in tasks
      modifies job
      ensures observed == old(job.Record()).(status := Running, updated := start)
      ensures var o := tasks[job.name].run(job.arguments);
              job.status == FinalStatus(o) && job.result == StoredResult(o) && job.updated == finish
    {
      job.SetStatus(Running, start);
      observed := job.Record();
      var outcome := tasks[job.name].run(job.arguments);
      job.result := outcome.result;
      if outcome.err.Some? {
        if outcome.result == Nil {
          job.result := Str(outcome.err.value);
        }
        job.SetStatus(Status.Failure, finish);
        return;
      }
      job.SetStatus(Status.Success, finish);
    }

    /**
     * One step of the worker: take the oldest queued job and run it to
     * completion. An empty FIFO leaves everything as it is (the worker would wait).
     * Only the job taken is touched, so every job behind it stays PENDING
     * throughout. `observed` is the job as its runner sees it.
     */
    method ProcessNext(start: int, finish: int) returns (job: Job?, ghost observed: JobRecord)
      requires Valid()
      modifies this`queued, if queued == [] then {} else {queued[0]}
      ensures Valid()
      ensures old(queued) == [] ==> job == null && queued == []
      ensures old(queued) != [] ==>
                && job == old(queued[0])
                && queued == old(queued[1..])
                && observed == old(queued[0].Record()).(status := Running, updated := start)
                && var o := tasks[job.name].run(job.arguments);
                   job.status == FinalStatus(o) && job.result == StoredResult(o) && job.updated == finish
    {
      if queued == [] {
        observed := JobRecord("", "", Pending, Nil, Nil, 0, 0);
        return null, observed;
      }
      job := queued[0];
      queued := queued[1..];
      assert forall j :: j in queued ==> j != job;
      observed := Run(job, start, finish);
    }

    /**
     * The queue's own sweep: keeps exactly the jobs updated strictly after
     * `now - maxAge` seconds, finished or not, in order.
     */
    method Clean(now: int)
      requires Valid()
      modifies this`jobs
      ensures Valid()
      ensures jobs == old(KeptJobs(jobs, UpdatedAfter(now - maxAge * Second)))
    {
      var newList: seq<Job> := [];
      var limit := now - maxAge * Second;
      var all := jobs;
      var i := 0;
      while i < |all|
        invariant 0 <= i <= |all|
        invariant newList == KeptJobs(all[..i], UpdatedAfter(limit))
      {
        var job := all[i];
        if job.updated > limit {
          newList := newList + [job];
        }
        KeptJobsAppend(all[..i], job, UpdatedAfter(limit));
        assert all[..i + 1] == all[..i] + [job];
        i := i + 1;
      }
      assert all[..i] == all;
      jobs := newList;
    }
  }

  /**
   * Unlike the memory store, the queue's sweep does not spare unfinished jobs:
   * a job survives exactly when it was updated after the limit.
   */
  lemma QueueSweepMembers(js: seq<Job>, limit: int)
    ensures forall j :: j in KeptJobs(js, UpdatedAfter(limit)) <==> j in js && j.updated > limit
  {
    KeptJobsMembers(js, UpdatedAfter(limit));
  }
}
