/**
 * Retention: the clean strategies of cleaner.go and the order-preserving
 * job filter that every sweep in the system is an instance of.
 */
module Retention {
  import opened Tsq
  import opened Sequences

  /** Time is an integer count of nanoseconds, the unit of Go's `time.Duration`. */
  const Second: int := 1_000_000_000
  const Minute: int := 60 * Second
  const Hour: int := 60 * Minute

  /**
   * A `CleanStrategy`: the time-based one of cleaner.go, or any other
   * side-effect-free keep/discard decision on one job at a given instant.
   */
  datatype CleanStrategy =
    | TimeBased(maxAge: int)
    | Custom(keep: (JobRecord, int) -> bool)

  /**
   * `ShouldKeep(job)` at instant `now`. The time-based strategy keeps a job
   * whose last update is strictly after `now - maxAge`.
   */
  function ShouldKeep(s: CleanStrategy, job: JobRecord, now: int): (keep: bool)
    ensures s.TimeBased? ==> (keep <==> now - job.updated < s.maxAge)
  {
    match s
    case TimeBased(maxAge) => job.updated > now - maxAge
    case Custom(keep) => keep(job, now)
  }

  /** With a maximum age of zero nothing updated at or before `now` is kept. */
  lemma ZeroMaxAgeKeepsNothingPast(job: JobRecord, now: int)
    requires job.updated <= now
    ensures !ShouldKeep(TimeBased(0), job, now)
  {
  }

  /** A job kept under a maximum age is kept under every larger one. */
  lemma ShouldKeepMonotone(m: int, m': int, job: JobRecord, now: int)
    requires m <= m'
    requires ShouldKeep(TimeBased(m), job, now)
    ensures ShouldKeep(TimeBased(m'), job, now)
  {
  }

  /** With a one-hour window, thirty minutes old is kept and two hours old is not. */
  lemma OneHourWindow(recent: JobRecord, stale: JobRecord, now: int)
    requires recent.updated == now - 30 * Minute
    requires stale.updated == now - 2 * Hour
    ensures ShouldKeep(TimeBased(Hour), recent, now)
    ensures !ShouldKeep(TimeBased(Hour), stale, now)
  {
  }

  /** The memory store's rule: a job survives if unfinished or if the strategy keeps it. */
  function Retain(s: CleanStrategy, now: int): (keep: JobRecord -> bool)
    ensures forall job: JobRecord :: !job.status.Finished() ==> keep(job)
    ensures forall job: JobRecord :: job.status.Finished() ==> (keep(job) <==> ShouldKeep(s, job, now))
  {
    (job: JobRecord) => !job.status.Finished() || ShouldKeep(s, job, now)
  }

  /** The task queue's rule: a job survives if it was updated strictly after `limit`. */
  function UpdatedAfter(limit: int): (keep: JobRecord -> bool)
    ensures forall job: JobRecord :: keep(job) <==> job.updated > limit
    ensures forall job: JobRecord, st: Status :: keep(job.(status := st)) == keep(job)
  {
    (job: JobRecord) => job.updated > limit
  }

  /** The jobs of `js` whose current record `keep` accepts, in their original order. */
  function KeptJobs(js: seq<Job>, keep: JobRecord -> bool): (r: seq<Job>)
    reads js
    ensures |r| <= |js|
  {
    if js == [] then []
    else (if keep(js[0].Record()) then [js[0]] else []) + KeptJobs(js[1..], keep)
  }

  /** Filtering one more job extends the result by that job, if it is kept. */
  lemma {:induction false} KeptJobsAppend(js: seq<Job>, j: Job, keep: JobRecord -> bool)
    ensures KeptJobs(js + [j], keep) == KeptJobs(js, keep) + (if keep(j.Record()) then [j] else [])
  {
    if js == [] {
      assert js + [j] == [j];
    } else {
      assert (js + [j])[1..] == js[1..] + [j];
      KeptJobsAppend(js[1..], j, keep);
    }
  }

  /** A job survives exactly when it was in the input and is kept. */
  lemma {:induction false} KeptJobsMembers(js: seq<Job>, keep: JobRecord -> bool)
    ensures forall j :: j in KeptJobs(js, keep) <==> j in js && keep(j.Record())
  {
    if js != [] {
      KeptJobsMembers(js[1..], keep);
      assert js == [js[0]] + js[1..];
    }
  }

  /** The survivors keep their relative order. */
  lemma {:induction false} KeptJobsSubsequence(js: seq<Job>, keep: JobRecord -> bool)
    ensures IsSubsequence(KeptJobs(js, keep), js)
  {
    if js != [] {
      var rest := KeptJobs(js[1..], keep);
      KeptJobsSubsequence(js[1..], keep);
      if !keep(js[0].Record()) {
        assert KeptJobs(js, keep) == rest;
        if rest != [] {
          KeptJobsMembers(js[1..], keep);
          assert rest[0] in rest;
          assert rest[0] != js[0];
        }
      }
    }
  }

  /** A second sweep with the same rule, on the same records, removes nothing more. */
  lemma {:induction false} KeptJobsIdempotent(js: seq<Job>, keep: JobRecord -> bool)
    ensures KeptJobs(KeptJobs(js, keep), keep) == KeptJobs(js, keep)
  {
    if js != [] {
      KeptJobsIdempotent(js[1..], keep);
      var rest := KeptJobs(js[1..], keep);
      if keep(js[0].Record()) {
        var once := [js[0]] + rest;
        assert KeptJobs(js, keep) == once;
        assert once[0] == js[0] && once[1..] == rest;
        assert KeptJobs(once, keep) == [js[0]] + KeptJobs(rest, keep);
      } else {
        assert KeptJobs(js, keep) == rest;
      }
    }
  }

  /** Whatever the strategy says, a sweep with `Retain` never evicts an unfinished job. */
  lemma RetainSparesUnfinished(js: seq<Job>, s: CleanStrategy, now: int)
    ensures forall j :: j in js && !j.HasFinished() ==> j in KeptJobs(js, Retain(s, now))
  {
    KeptJobsMembers(js, Retain(s, now));
  }

  /**
   * A sweep with a zero maximum age over jobs updated no later than `now`
   * keeps exactly the unfinished ones.
   */
  lemma ZeroMaxAgeSweep(js: seq<Job>, now: int)
    requires forall j :: j in js ==> j.updated <= now
    ensures forall j :: j in KeptJobs(js, Retain(TimeBased(0), now)) <==> j in js && !j.HasFinished()
  {
    KeptJobsMembers(js, Retain(TimeBased(0), now));
  }
}
