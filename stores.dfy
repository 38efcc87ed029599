/**
 * The in-memory job store of memorystore.go and the `Cleaner` of cleaner.go
 * that sweeps it. The two are kept together because each refers to the other.
 */
module Stores {
  import opened Wrappers
  import opened Tsq
  import opened Retention

  /** An ordered list of shared job records; lookups return the records themselves. */
  class CleanedMemoryStore {
    var jobs: seq<Job>
    var cleaner: Cleaner?

    /** `NewCleanedMemoryStore`: an empty list and a cleaner with a time-based strategy. */
    constructor (cleanInterval: int, maxAge: int)
      ensures jobs == []
      ensures cleaner != null && fresh(cleaner)
      ensures cleaner.store == this && cleaner.cleanInterval == cleanInterval
      ensures cleaner.cleanStrategy == TimeBased(maxAge)
    {
      jobs := [];
      cleaner := null;
      new;
      cleaner := new Cleaner(this, cleanInterval, TimeBased(maxAge));
    }

    /** Appends the job; never fails. */
    method Store(job: Job) returns (err: Option<string>)
      modifies this`jobs
      ensures jobs == old(jobs) + [job]
      ensures err == None
    {
      jobs := jobs + [job];
      err := None;
    }

    /** The list itself, in insertion order; never fails. */
    method GetJobs() returns (js: seq<Job>, err: Option<string>)
      ensures js == jobs && err == None
    {
      js, err := jobs, None;
    }

    /** The first job with that identifier, or the not-found error. */
    method GetJob(uuid: string) returns (job: Job?, err: Option<string>)
      ensures FirstMatch(jobs, uuid).Some? ==> job == jobs[FirstMatch(jobs, uuid).value] && err == None
      ensures FirstMatch(jobs, uuid).None? ==> job == null && err == Some(NotFound(uuid))
    {
      job, err := FindJob(jobs, uuid);
    }

    /**
     * Sets status and update time on the first job with that identifier.
     * The frame is that one job: the list and every other job stay as they were.
     */
    method SetStatus(uuid: string, status: Status, updated: int) returns (err: Option<string>)
      modifies Matched(jobs, uuid)
      ensures FirstMatch(jobs, uuid).None? ==> err == Some(NotFound(uuid))
      ensures FirstMatch(jobs, uuid).Some? ==>
                var j := jobs[FirstMatch(jobs, uuid).value];
                err == None && j.status == status && j.updated == updated && j.result == old(j.result)
    {
      var job;
      job, err := GetJob(uuid);
      if err.Some? {
        return;
      }
      job.status := status;
      job.updated := updated;
    }

    /** Sets the result of the first job with that identifier, and nothing else. */
    method SetResult(uuid: string, result: Value) returns (err: Option<string>)
      modifies Matched(jobs, uuid)
      ensures FirstMatch(jobs, uuid).None? ==> err == Some(NotFound(uuid))
      ensures FirstMatch(jobs, uuid).Some? ==>
                var j := jobs[FirstMatch(jobs, uuid).value];
                err == None && j.result == result && j.status == old(j.status) && j.updated == old(j.updated)
    {
      var job;
      job, err := GetJob(uuid);
      if err.Some? {
        return;
      }
      job.result := result;
    }

    /**
     * Rebuilds the list from the jobs that are unfinished or that the
     * strategy keeps, in their original order.
     */
    method Clean(strategy: CleanStrategy, now: int)
      modifies this`jobs
      ensures jobs == old(KeptJobs(jobs, Retain(strategy, now)))
    {
      var newList: seq<Job> := [];
      var all := jobs;
      var i := 0;
      while i < |all|
        invariant 0 <= i <= |all|
        invariant newList == KeptJobs(all[..i], Retain(strategy, now))
      {
        var job := all[i];
        if !job.HasFinished() || ShouldKeep(strategy, job.Record(), now) {
          newList := newList + [job];
        }
        KeptJobsAppend(all[..i], job, Retain(strategy, now));
        assert all[..i + 1] == all[..i] + [job];
        i := i + 1;
      }
      assert all[..i] == all;
      jobs := newList;
    }
  }

  /** The sweeper: a target store, an interval and a strategy. */
  class Cleaner {
    const store: CleanedMemoryStore
    const cleanInterval: int
    const cleanStrategy: CleanStrategy

    /** `NewCleaner` records exactly what it is given. */
    constructor (store: CleanedMemoryStore, cleanInterval: int, cleanStrategy: CleanStrategy)
      ensures this.store == store && this.cleanInterval == cleanInterval
      ensures this.cleanStrategy == cleanStrategy
    {
      this.store := store;
      this.cleanInterval := cleanInterval;
      this.cleanStrategy := cleanStrategy;
    }

    /** One sweep: the store cleans itself with this cleaner's own strategy. */
    method Clean(now: int)
      modifies store`jobs
      ensures store.jobs == old(KeptJobs(store.jobs, Retain(cleanStrategy, now)))
    {
      store.Clean(cleanStrategy, now);
    }
  }
}
