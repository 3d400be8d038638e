/**
 * The worker base layer (workers/base.py): the job configuration every job
 * type extends, the status record of a job and its transitions, job-id
 * generation, and the polling rule every worker loop follows.
 */
module WorkerBase {
  import opened Values

  /** The four values the `status` field takes. */
  datatype JobState = Running | Completed | Stopped | Failed {
    function Name(): (s: string)
      ensures s in {"running", "completed", "stopped", "failed"}
    {
      match this
      case Running => "running"
      case Completed => "completed"
      case Stopped => "stopped"
      case Failed => "failed"
    }
  }

  // ---------------------------------------------------------------------------
  // JobConfig

  /** Base configuration of a job; `durationSeconds` keeps the number as it was given. */
  datatype JobConfig = JobConfig(durationSeconds: Json, jobId: string) {
    /** `JobConfig.to_dict`. */
    function ToDict(): (d: map<string, Json>)
      ensures d.Keys == {"job_id", "duration_seconds"}
      ensures d["job_id"] == JStr(jobId) && d["duration_seconds"] == durationSeconds
    {
      map["job_id" := JStr(jobId), "duration_seconds" := durationSeconds]
    }
  }

  /** Reads a base configuration back from its dictionary form. */
  function JobConfigFromDict(d: map<string, Json>): (r: Option<JobConfig>)
    ensures r.Some? ==> "job_id" in d && "duration_seconds" in d
  {
    if "job_id" in d && d["job_id"].JStr? && "duration_seconds" in d then
      Some(JobConfig(d["duration_seconds"], d["job_id"].s))
    else
      None
  }

  lemma JobConfigRoundTrip(c: JobConfig)
    ensures JobConfigFromDict(c.ToDict()) == Some(c)
  {
  }

  // ---------------------------------------------------------------------------
  // JobStatus

  /**
   * Status of a running or finished job. Timestamps are instants of an
   * injected clock; the source writes them as ISO-8601 strings.
   */
  class JobStatus {
    var jobId: string
    var status: JobState
    var startedAt: int
    var config: map<string, Json>
    var completedAt: Option<int>
    var stoppedAt: Option<int>
    var error: Option<string>

    /** `JobStatus.running`: a fresh running record. */
    constructor Running(jobId: string, config: map<string, Json>, now: int)
      ensures this.jobId == jobId && this.config == config
      ensures status == JobState.Running && startedAt == now
      ensures completedAt == None && stoppedAt == None && error == None
    {
      this.jobId := jobId;
      this.status := JobState.Running;
      this.startedAt := now;
      this.config := config;
      this.completedAt := None;
      this.stoppedAt := None;
      this.error := None;
    }

    method MarkCompleted(now: int)
      modifies this
      ensures status == Completed && completedAt == Some(now)
      ensures jobId == old(jobId) && startedAt == old(startedAt) && config == old(config)
      ensures stoppedAt == old(stoppedAt) && error == old(error)
    {
      status := Completed;
      completedAt := Some(now);
    }

    method MarkStopped(now: int)
      modifies this
      ensures status == Stopped && stoppedAt == Some(now)
      ensures jobId == old(jobId) && startedAt == old(startedAt) && config == old(config)
      ensures completedAt == old(completedAt) && error == old(error)
    {
      status := Stopped;
      stoppedAt := Some(now);
    }

    method MarkFailed(message: string, now: int)
      modifies this
      ensures status == Failed && completedAt == Some(now) && error == Some(message)
      ensures jobId == old(jobId) && startedAt == old(startedAt) && config == old(config)
      ensures stoppedAt == old(stoppedAt)
    {
      status := Failed;
      completedAt := Some(now);
      error := Some(message);
    }

    /**
     * `JobStatus.to_dict`: the four fixed entries, and each optional entry only
     * when it is set (an empty error message counts as unset).
     */
    function ToDict(): (d: map<string, Json>)
      reads this
      ensures {"job_id", "status", "started_at", "config"} <= d.Keys
      ensures d.Keys <= {"job_id", "status", "started_at", "config", "completed_at", "stopped_at", "error"}
      ensures d["job_id"] == JStr(jobId) && d["status"] == JStr(status.Name())
      ensures d["started_at"] == JInt(startedAt) && d["config"] == JObj(config)
      ensures "completed_at" in d <==> completedAt.Some?
      ensures "completed_at" in d ==> d["completed_at"] == JInt(completedAt.value)
      ensures "stopped_at" in d <==> stoppedAt.Some?
      ensures "stopped_at" in d ==> d["stopped_at"] == JInt(stoppedAt.value)
      ensures "error" in d <==> error.Some? && error.value != ""
      ensures "error" in d ==> d["error"] == JStr(error.value)
    {
      var base := map["job_id" := JStr(jobId), "status" := JStr(status.Name()),
                       "started_at" := JInt(startedAt), "config" := JObj(config)];
      var withCompleted := if completedAt.Some? then base["completed_at" := JInt(completedAt.value)] else base;
      var withStopped := if stoppedAt.Some? then withCompleted["stopped_at" := JInt(stoppedAt.value)] else withCompleted;
      if error.Some? && error.value != "" then withStopped["error" := JStr(error.value)] else withStopped
    }
  }

  // ---------------------------------------------------------------------------
  // Job ids: `<prefix><epoch milliseconds>`

  function DigitChar(d: nat): (c: char)
    requires d < 10
    ensures '0' <= c <= '9' && c as int - '0' as int == d
  {
    ('0' as int + d) as char
  }

  predicate IsDigits(s: string) {
    forall i :: 0 <= i < |s| ==> '0' <= s[i] <= '9'
  }

  /** Decimal notation of `n` as Python's `str(int)` writes it. */
  function Decimal(n: nat): (s: string)
    ensures |s| > 0 && IsDigits(s)
    ensures s[0] == '0' ==> n == 0
    decreases n
  {
    if n < 10 then [DigitChar(n)] else Decimal(n / 10) + [DigitChar(n % 10)]
  }

  function ParseDecimal(s: string): (n: nat)
    requires IsDigits(s)
  {
    if s == [] then 0
    else ParseDecimal(s[..|s| - 1]) * 10 + (s[|s| - 1] as int - '0' as int)
  }

  lemma {:induction false} ParseDecimalOfDecimal(n: nat)
    ensures ParseDecimal(Decimal(n)) == n
    decreases n
  {
    var s := Decimal(n);
    if n >= 10 {
      assert s[..|s| - 1] == Decimal(n / 10);
      ParseDecimalOfDecimal(n / 10);
    }
  }

  /** `BaseWorker.generate_job_id` with the millisecond clock reading passed in. */
  function GenerateJobId(prefix: string, nowMs: nat): (id: string)
    ensures |id| > |prefix| && id[..|prefix|] == prefix
    ensures IsDigits(id[|prefix|..])
  {
    prefix + Decimal(nowMs)
  }

  /** Reads the timestamp back out of a job id with the given prefix. */
  function ParseJobId(prefix: string, id: string): (r: Option<nat>)
  {
    if |prefix| < |id| && id[..|prefix|] == prefix && IsDigits(id[|prefix|..]) then
      Some(ParseDecimal(id[|prefix|..]))
    else
      None
  }

  lemma JobIdRoundTrip(prefix: string, nowMs: nat)
    ensures ParseJobId(prefix, GenerateJobId(prefix, nowMs)) == Some(nowMs)
  {
    var id := GenerateJobId(prefix, nowMs);
    assert id[|prefix|..] == Decimal(nowMs);
    ParseDecimalOfDecimal(nowMs);
  }

  /** Two ids of one prefix collide exactly when their millisecond readings do. */
  lemma JobIdsCollideOnlyOnSameMillisecond(prefix: string, a: nat, b: nat)
    ensures GenerateJobId(prefix, a) == GenerateJobId(prefix, b) <==> a == b
  {
    if GenerateJobId(prefix, a) == GenerateJobId(prefix, b) {
      JobIdRoundTrip(prefix, a);
      JobIdRoundTrip(prefix, b);
    }
  }

  // ---------------------------------------------------------------------------
  // Cooperative cancellation: the polling rule of the worker loops

  /**
   * What one check of a worker loop observes: the clock reading taken by the
   * loop condition, and what `stop_event.is_set()` answers right after it.
   */
  datatype Observation = Observation(now: real, stopSet: bool)

  /** A check ends the loop when the deadline has passed or the stop flag is set. */
  predicate Exits(o: Observation, deadline: real) {
    o.now >= deadline || o.stopSet
  }

  /** The run described by `trace` ends: some check ends the loop. */
  predicate Finishes(trace: seq<Observation>, deadline: real) {
    exists k :: 0 <= k < |trace| && Exits(trace[k], deadline)
  }

  /** The index of the check at which the loop exits: the first one that ends it. */
  function FirstExit(trace: seq<Observation>, deadline: real): (k: nat)
    requires Finishes(trace, deadline)
    ensures k < |trace| && Exits(trace[k], deadline)
    ensures forall j :: 0 <= j < k ==> !Exits(trace[j], deadline)
  {
    if Exits(trace[0], deadline) then 0
    else
      assert Finishes(trace[1..], deadline) by {
        var k :| 0 <= k < |trace| && Exits(trace[k], deadline);
        assert trace[1..][k - 1] == trace[k];
      }
      1 + FirstExit(trace[1..], deadline)
  }
}
