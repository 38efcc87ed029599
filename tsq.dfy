/** The job data model and the contracts declared in tsq.go. */
module Tsq {
  import opened Wrappers

  /** The four job states. Go stores them as strings; `Text` gives the constant. */
  datatype Status = Pending | Running | Success | Failure {

    function Text(): (t: string)
    {
      match this
      case Pending => "PENDING"
      case Running => "RUNNING"
      case Success => "SUCCESS"
      case Failure => "FAILURE"
    }

    /** A job is finished once it reached one of the two terminal states. */
    predicate Finished() {
      this == Success || this == Failure
    }
  }

  /** The status constant spelled by `t`, if any. */
  function StatusOf(t: string): (r: Option<Status>)
    ensures r.Some? <==> t in {"PENDING", "RUNNING", "SUCCESS", "FAILURE"}
    ensures r.Some? ==> r.value.Text() == t
  {
    if t == "PENDING" then Some(Pending)
    else if t == "RUNNING" then Some(Running)
    else if t == "SUCCESS" then Some(Success)
    else if t == "FAILURE" then Some(Failure)
    else None
  }

  /** The four constants are distinct: reading a status's text back gives that status. */
  lemma StatusTextRoundTrip(s: Status)
    ensures StatusOf(s.Text()) == Some(s)
  {
  }

  lemma StatusTextsDistinct()
    ensures |{Pending.Text(), Running.Text(), Success.Text(), Failure.Text()}| == 4
  {
  }

  /**
   * An opaque `interface{}` value: Go's untyped nil, a string, or any other
   * value (identified only by a tag, since the queue never looks inside).
   */
  datatype Value = Nil | Str(text: string) | Data(tag: int)

  /**
   * What `Runner.Run` returns: a result and an error, independently, so a
   * runner may report both at once.
   */
  datatype RunOutcome = RunOutcome(result: Value, err: Option<string>)

  /** A task implementation. The model's runners are pure functions of the arguments. */
  datatype Runner = Runner(run: Value -> RunOutcome)

  /** The value of a `Job` struct: its seven fields. */
  datatype JobRecord = JobRecord(
    uuid: string,
    name: string,
    status: Status,
    arguments: Value,
    result: Value,
    created: int,
    updated: int)

  /**
   * A `*Job`: the record the queue, the store and the submitter share.
   * Only `status`, `result` and `updated` are ever assigned after construction.
   */
  class Job {
    const uuid: string
    const name: string
    var status: Status
    const arguments: Value
    var result: Value
    const created: int
    var updated: int

    constructor (uuid: string, name: string, status: Status, arguments: Value, result: Value, created: int, updated: int)
      ensures Record() == JobRecord(uuid, name, status, arguments, result, created, updated)
    {
      this.uuid := uuid;
      this.name := name;
      this.status := status;
      this.arguments := arguments;
      this.result := result;
      this.created := created;
      this.updated := updated;
    }

    /** The current value of the record behind this pointer. */
    function Record(): JobRecord
      reads this
    {
      JobRecord(uuid, name, status, arguments, result, created, updated)
    }

    predicate HasFinished()
      reads this
      ensures HasFinished() <==> status == Status.Success || status == Status.Failure
    {
      status.Finished()
    }

    /** A status change: the new status, stamped with the time of the change. */
    method SetStatus(status: Status, now: int)
      modifies this`status, this`updated
      ensures this.status == status && updated == now
      ensures result == old(result)
    {
      this.status := status;
      updated := now;
    }
  }

  /** The error both job lists report for an absent identifier. */
  function NotFound(uuid: string): string {
    "Job " + uuid + " not found"
  }

  /** The index of the first job in `js` whose identifier is `uuid`. */
  function FirstMatch(js: seq<Job>, uuid: string): (r: Option<nat>)
    ensures r.Some? ==> r.value < |js| && js[r.value].uuid == uuid
    ensures r.Some? ==> forall k :: 0 <= k < r.value ==> js[k].uuid != uuid
    ensures r.None? ==> forall k :: 0 <= k < |js| ==> js[k].uuid != uuid
  {
    if js == [] then None
    else if js[0].uuid == uuid then Some(0)
    else match FirstMatch(js[1..], uuid)
      case None => None
      case Some(i) => Some(i + 1)
  }

  /** The objects a lookup of `uuid` can reach: the first match, or none. */
  function Matched(js: seq<Job>, uuid: string): set<Job> {
    match FirstMatch(js, uuid)
    case None => {}
    case Some(i) => {js[i]}
  }

  /** Appending a job under a fresh identifier makes it the first match for that identifier. */
  lemma {:induction false} FirstMatchAppended(js: seq<Job>, j: Job)
    requires forall k :: 0 <= k < |js| ==> js[k].uuid != j.uuid
    ensures FirstMatch(js + [j], j.uuid) == Some(|js|)
  {
    if js != [] {
      assert (js + [j])[1..] == js[1..] + [j];
      FirstMatchAppended(js[1..], j);
    }
  }

  /**
   * The linear scan shared by `TaskQueue.GetJob` and `CleanedMemoryStore.GetJob`:
   * the first job with that identifier, or the not-found error.
   */
  method FindJob(js: seq<Job>, uuid: string) returns (job: Job?, err: Option<string>)
    ensures FirstMatch(js, uuid).Some? ==> job == js[FirstMatch(js, uuid).value] && err == None
    ensures FirstMatch(js, uuid).None? ==> job == null && err == Some(NotFound(uuid))
  {
    var i := 0;
    while i < |js|
      invariant 0 <= i <= |js|
      invariant forall k :: 0 <= k < i ==> js[k].uuid != uuid
    {
      if js[i].uuid == uuid {
        return js[i], None;
      }
      i := i + 1;
    }
    return null, Some(NotFound(uuid));
  }
}
