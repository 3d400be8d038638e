/**
 * The job registry of the service (services/job_manager.py): one record per
 * job id, kept in the insertion order of the underlying dictionary, with the
 * operations the routes call to list, stop, reap and evict jobs.
 *
 * Worker processes are represented by their liveness; the clock is a
 * parameter (seconds since the epoch); which processes outlive the
 * one-second join after `terminate()` is a parameter too.
 */
module JobManagerService {
  import opened Values
  import opened Constants
  import opened WorkerBase
  import CpuWorker
  import MemoryWorker

  /** The record stored under one job id. `processes` and `stopEvent` are dropped by the reaper. */
  datatype Job = Job(
    jobId: string,
    jobType: string,
    config: map<string, Json>,
    processes: Option<seq<bool>>,
    stopEvent: Option<bool>,
    startedAt: real,
    status: JobState,
    completedAt: Option<real>,
    stoppedAt: Option<real>)

  datatype CpuView = CpuView(coresActive: nat, coresRequested: Json)

  /** The serialisable dictionary `get_all_jobs` builds for one job. */
  datatype JobView = JobView(
    jobId: string,
    jobType: string,
    status: JobState,
    config: map<string, Json>,
    startedAt: real,
    completedAt: Option<real>,
    stoppedAt: Option<real>,
    cpu: Option<CpuView>)

  // ---------------------------------------------------------------------------
  // Processes

  /** Number of live worker processes; a reaped record has none. */
  function AliveCount(processes: Option<seq<bool>>): (n: nat)
    ensures processes.Some? ==> n <= |processes.value|
    ensures n == 0 <==> processes.None? || forall i :: 0 <= i < |processes.value| ==> !processes.value[i]
    decreases if processes.Some? then |processes.value| else 0
  {
    if processes.None? || processes.value == [] then 0
    else
      var ps := processes.value;
      var rest := AliveCount(Some(ps[..|ps| - 1]));
      assert forall i :: 0 <= i < |ps| - 1 ==> ps[..|ps| - 1][i] == ps[i];
      rest + (if ps[|ps| - 1] then 1 else 0)
  }

  /**
   * Liveness after `_terminate_job`'s loop: every live process is sent
   * `terminate()`; process `i` of job `jobId` is still alive after the
   * timed join exactly when `(jobId, i)` is in `survivors`.
   */
  function Terminated(jobId: string, processes: seq<bool>, survivors: set<(string, nat)>): (after: seq<bool>)
    ensures |after| == |processes|
    ensures forall i :: 0 <= i < |after| && after[i] ==> processes[i]
    ensures forall i :: 0 <= i < |after| && (jobId, i) !in survivors ==> !after[i]
    ensures forall i :: 0 <= i < |after| && processes[i] && (jobId, i) in survivors ==> after[i]
  {
    seq(|processes|, i requires 0 <= i < |processes| => processes[i] && (jobId, i) in survivors)
  }

  /** Termination never revives a process, and kills all of them when none hangs. */
  lemma TerminationOnlyKills(jobId: string, processes: seq<bool>, survivors: set<(string, nat)>)
    ensures forall i :: 0 <= i < |processes| && Terminated(jobId, processes, survivors)[i] ==> processes[i]
    ensures AliveCount(Some(Terminated(jobId, processes, survivors))) <= AliveCount(Some(processes))
    ensures (forall i :: (jobId, i) !in survivors) ==> AliveCount(Some(Terminated(jobId, processes, survivors))) == 0
  {
    AliveCountMonotone(Terminated(jobId, processes, survivors), processes);
  }

  lemma {:induction false} AliveCountMonotone(fewer: seq<bool>, more: seq<bool>)
    requires |fewer| == |more|
    requires forall i :: 0 <= i < |fewer| && fewer[i] ==> more[i]
    ensures AliveCount(Some(fewer)) <= AliveCount(Some(more))
    decreases |fewer|
  {
    if fewer != [] {
      AliveCountMonotone(fewer[..|fewer| - 1], more[..|more| - 1]);
    }
  }

  /** The loop of `_terminate_job` over a job's processes. */
  method TerminateProcesses(jobId: string, processes: seq<bool>, survivors: set<(string, nat)>)
    returns (after: seq<bool>)
    ensures after == Terminated(jobId, processes, survivors)
  {
    after := [];
    var i := 0;
    while i < |processes|
      invariant 0 <= i <= |processes|
      invariant after == Terminated(jobId, processes, survivors)[..i]
    {
      var alive := processes[i];
      if alive {
        // terminate(), then join(timeout=PROCESS_TERMINATE_TIMEOUT)
        alive := (jobId, i) in survivors;
      }
      after := after + [alive];
      i := i + 1;
    }
  }

  /** `_terminate_job`: sets the stop event, then terminates the live processes. */
  method TerminateJob(job: Job, survivors: set<(string, nat)>) returns (t: Job)
    ensures t == job.(stopEvent := if job.stopEvent.Some? then Some(true) else None,
                      processes := if job.processes.Some? then Some(Terminated(job.jobId, job.processes.value, survivors)) else None)
  {
    t := job;
    if t.stopEvent.Some? {
      t := t.(stopEvent := Some(true));
    }
    if t.processes.Some? {
      var after := TerminateProcesses(job.jobId, t.processes.value, survivors);
      t := t.(processes := Some(after));
    }
  }

  /** `stop_job`'s and `stop_all_jobs`' treatment of one record: terminate, mark stopped, stamp. */
  method StopRecord(job: Job, survivors: set<(string, nat)>, now: real) returns (s: Job)
    ensures s == StoppedJob(job, survivors, now)
  {
    s := TerminateJob(job, survivors);
    s := s.(status := Stopped, stoppedAt := Some(now));
  }

  // ---------------------------------------------------------------------------
  // Derived views

  /** The status `get_all_jobs` reports: running while a process lives, else the stored one. */
  function ReportedStatus(job: Job): (s: JobState)
    ensures s == Running <==> AliveCount(job.processes) > 0 || job.status == Running
    ensures s != Running ==> s == job.status
  {
    if AliveCount(job.processes) > 0 then Running else job.status
  }

  /** The dictionary listed for `job`. */
  function ViewOf(job: Job): (v: JobView)
    ensures v.jobId == job.jobId && v.jobType == job.jobType && v.config == job.config
    ensures v.status == ReportedStatus(job)
    ensures v.cpu.Some? <==> job.jobType == "cpu"
    ensures v.cpu.Some? ==> v.cpu.value.coresActive == AliveCount(job.processes)
    ensures v.cpu.Some? ==> v.cpu.value.coresRequested == GetOr(job.config, "cores", JInt(0))
  {
    JobView(job.jobId, job.jobType, ReportedStatus(job), job.config,
            job.startedAt, job.completedAt, job.stoppedAt,
            if job.jobType == "cpu"
            then Some(CpuView(AliveCount(job.processes), GetOr(job.config, "cores", JInt(0))))
            else None)
  }

  /** A job registered under the CPU worker's type is listed with its core counts; a memory job is not. */
  lemma WorkerTypeSelectsView(jobId: string, config: map<string, Json>, processes: seq<bool>, now: real)
    ensures ViewOf(Registered(jobId, CpuWorker.WORKER_TYPE, config, processes, now)).cpu
         == Some(CpuView(AliveCount(Some(processes)), GetOr(config, "cores", JInt(0))))
    ensures ViewOf(Registered(jobId, MemoryWorker.WORKER_TYPE, config, processes, now)).cpu.None?
  {
  }

  /** The `job_type` filter: absent or empty matches every job. */
  predicate Matches(filter: Option<string>, job: Job) {
    filter.None? || filter.value == "" || job.jobType == filter.value
  }

  /** What `stop_all_jobs` acts on: matching jobs whose stored status is running. */
  predicate ShouldStop(filter: Option<string>, job: Job) {
    Matches(filter, job) && job.status == Running
  }

  predicate Distinct(ids: seq<string>) {
    forall i, j :: 0 <= i < j < |ids| ==> ids[i] != ids[j]
  }

  /** Every id of `ids` has a record in `jobs`. */
  predicate AllIn(ids: seq<string>, jobs: map<string, Job>) {
    forall k :: 0 <= k < |ids| ==> ids[k] in jobs
  }

  /** The ids of `ids`, in order, whose job matches the filter. */
  function Listed(ids: seq<string>, jobs: map<string, Job>, filter: Option<string>): (r: seq<string>)
    requires AllIn(ids, jobs)
    ensures forall k :: 0 <= k < |r| ==> r[k] in jobs && Matches(filter, jobs[r[k]])
  {
    if ids == [] then []
    else
      var last := ids[|ids| - 1];
      Listed(ids[..|ids| - 1], jobs, filter) + (if Matches(filter, jobs[last]) then [last] else [])
  }

  /** Listing keeps exactly the matching ids, each once when the table's keys are distinct. */
  lemma {:induction false} ListedMembers(ids: seq<string>, jobs: map<string, Job>, filter: Option<string>)
    requires AllIn(ids, jobs)
    ensures forall id :: id in Listed(ids, jobs, filter) <==> id in ids && Matches(filter, jobs[id])
    ensures Distinct(ids) ==> Distinct(Listed(ids, jobs, filter))
    decreases |ids|
  {
    if ids != [] {
      var init := ids[..|ids| - 1];
      assert forall id :: id in ids <==> id in init || id == ids[|ids| - 1];
      ListedMembers(init, jobs, filter);
    }
  }

  /** The ids of `ids`, in order, that `stop_all_jobs` stops. */
  function ToStop(ids: seq<string>, jobs: map<string, Job>, filter: Option<string>): (r: seq<string>)
    requires AllIn(ids, jobs)
    ensures |r| <= |ids|
    ensures forall k :: 0 <= k < |r| ==> r[k] in jobs && ShouldStop(filter, jobs[r[k]])
  {
    if ids == [] then []
    else
      var last := ids[|ids| - 1];
      ToStop(ids[..|ids| - 1], jobs, filter) + (if ShouldStop(filter, jobs[last]) then [last] else [])
  }

  lemma ToStopStep(ids: seq<string>, i: nat, jobs: map<string, Job>, filter: Option<string>)
    requires i < |ids|
    requires AllIn(ids, jobs)
    ensures ToStop(ids[..i + 1], jobs, filter)
         == ToStop(ids[..i], jobs, filter) + (if ShouldStop(filter, jobs[ids[i]]) then [ids[i]] else [])
  {
    assert ids[..i + 1][..i] == ids[..i];
  }

  /** `stop_all_jobs` reports exactly the matching ids stored as running. */
  lemma {:induction false} ToStopMembers(ids: seq<string>, jobs: map<string, Job>, filter: Option<string>)
    requires AllIn(ids, jobs)
    ensures forall id :: id in ToStop(ids, jobs, filter) <==> id in ids && ShouldStop(filter, jobs[id])
    decreases |ids|
  {
    if ids != [] {
      var init := ids[..|ids| - 1];
      assert forall id :: id in ids <==> id in init || id == ids[|ids| - 1];
      ToStopMembers(init, jobs, filter);
    }
  }

  /** `ids` without the members of `gone`, order kept. */
  function Remove(ids: seq<string>, gone: set<string>): (r: seq<string>)
    ensures |r| <= |ids|
  {
    if ids == [] then []
    else
      var last := ids[|ids| - 1];
      Remove(ids[..|ids| - 1], gone) + (if last in gone then [] else [last])
  }

  lemma {:induction false} RemoveMembers(ids: seq<string>, gone: set<string>)
    ensures forall id :: id in Remove(ids, gone) <==> id in ids && id !in gone
    ensures Distinct(ids) ==> Distinct(Remove(ids, gone))
    decreases |ids|
  {
    if ids != [] {
      var init := ids[..|ids| - 1];
      assert forall id :: id in ids <==> id in init || id == ids[|ids| - 1];
      RemoveMembers(init, gone);
    }
  }

  /** Removing in two rounds is removing once. */
  lemma {:induction false} RemoveTwice(ids: seq<string>, first: set<string>, second: set<string>)
    ensures Remove(Remove(ids, first), second) == Remove(ids, first + second)
    decreases |ids|
  {
    if ids != [] {
      var last := ids[|ids| - 1];
      var init := ids[..|ids| - 1];
      RemoveTwice(init, first, second);
      if last in first {
        assert Remove(ids, first) == Remove(init, first);
        assert Remove(ids, first + second) == Remove(init, first + second);
      } else {
        var once := Remove(init, first) + [last];
        assert Remove(ids, first) == once;
        assert once[..|once| - 1] == Remove(init, first);
        assert Remove(once, second) == Remove(Remove(init, first), second) + (if last in second then [] else [last]);
        assert Remove(ids, first + second) == Remove(init, first + second) + (if last in second then [] else [last]);
      }
    }
  }

  lemma {:induction false} RemoveNothing(ids: seq<string>)
    ensures Remove(ids, {}) == ids
    decreases |ids|
  {
    if ids != [] {
      RemoveNothing(ids[..|ids| - 1]);
    }
  }

  function Elements(ids: seq<string>): set<string> {
    set id | id in ids
  }

  /** The record `register_job` stores. */
  function Registered(jobId: string, jobType: string, config: map<string, Json>, processes: seq<bool>, now: real): (job: Job)
    ensures job.jobId == jobId && job.status == Running
    ensures job.completedAt.None? && job.stoppedAt.None?
  {
    Job(jobId, jobType, config, Some(processes), Some(false), now, Running, None, None)
  }

  /** A record after `stop_job` or `stop_all_jobs` acted on it. */
  function StoppedJob(job: Job, survivors: set<(string, nat)>, now: real): (s: Job)
    ensures s.status == Stopped && s.stoppedAt == Some(now)
    ensures s.jobId == job.jobId && s.jobType == job.jobType && s.config == job.config
    ensures s.startedAt == job.startedAt && s.completedAt == job.completedAt
    ensures s.stopEvent == (if job.stopEvent.Some? then Some(true) else None)
    ensures AliveCount(s.processes) <= AliveCount(job.processes)
  {
    TerminationOnlyKills(job.jobId, if job.processes.Some? then job.processes.value else [], survivors);
    job.(stopEvent := if job.stopEvent.Some? then Some(true) else None,
         processes := if job.processes.Some? then Some(Terminated(job.jobId, job.processes.value, survivors)) else None,
         status := Stopped,
         stoppedAt := Some(now))
  }

  /** A stopped job is reported stopped unless one of its processes outlived termination. */
  lemma StoppedJobReportsStopped(job: Job, survivors: set<(string, nat)>, now: real)
    requires forall i :: (job.jobId, i) !in survivors
    ensures ReportedStatus(StoppedJob(job, survivors, now)) == Stopped
  {
    TerminationOnlyKills(job.jobId, if job.processes.Some? then job.processes.value else [], survivors);
  }

  /** The job table after `stop_all_jobs`. */
  function StoppedAll(jobs: map<string, Job>, filter: Option<string>, survivors: set<(string, nat)>, now: real)
    : (after: map<string, Job>)
    ensures after.Keys == jobs.Keys
    ensures forall id :: id in jobs && ShouldStop(filter, jobs[id]) ==> after[id].status == Stopped
    ensures forall id :: id in jobs && !ShouldStop(filter, jobs[id]) ==> after[id] == jobs[id]
  {
    map id | id in jobs :: StopIfDue(jobs[id], filter, survivors, now)
  }

  /** One record after `stop_all_jobs`: stopped when it matched and was stored running. */
  function StopIfDue(job: Job, filter: Option<string>, survivors: set<(string, nat)>, now: real): Job {
    if ShouldStop(filter, job) then StoppedJob(job, survivors, now) else job
  }

  /** After `stop_all_jobs` a second call with the same filter stops nothing. */
  lemma SecondStopAllStopsNothing(ids: seq<string>, jobs: map<string, Job>, filter: Option<string>,
                                  survivors: set<(string, nat)>, now: real)
    requires AllIn(ids, jobs)
    ensures ToStop(ids, StoppedAll(jobs, filter, survivors, now), filter) == []
  {
    SecondStopStep(ids, jobs, filter, survivors, now);
  }

  lemma {:induction false} SecondStopStep(ids: seq<string>, jobs: map<string, Job>, filter: Option<string>,
                                          survivors: set<(string, nat)>, now: real)
    requires AllIn(ids, jobs)
    ensures ToStop(ids, StoppedAll(jobs, filter, survivors, now), filter) == []
    decreases |ids|
  {
    if ids != [] {
      SecondStopStep(ids[..|ids| - 1], jobs, filter, survivors, now);
    }
  }

  /** The table after the loop of `stop_all_jobs` has visited `ids`. */
  function StopPass(ids: seq<string>, jobs: map<string, Job>, filter: Option<string>,
                    survivors: set<(string, nat)>, now: real): map<string, Job>
    requires AllIn(ids, jobs)
  {
    if ids == [] then jobs
    else
      var last := ids[|ids| - 1];
      StopPass(ids[..|ids| - 1], jobs, filter, survivors, now)[last := StopIfDue(jobs[last], filter, survivors, now)]
  }

  lemma {:induction false} StopPassLookup(ids: seq<string>, jobs: map<string, Job>, filter: Option<string>,
                                          survivors: set<(string, nat)>, now: real)
    requires AllIn(ids, jobs)
    ensures StopPass(ids, jobs, filter, survivors, now).Keys == jobs.Keys
    ensures forall id :: id in jobs && id in ids ==> StopPass(ids, jobs, filter, survivors, now)[id] == StopIfDue(jobs[id], filter, survivors, now)
    ensures forall id :: id in jobs && id !in ids ==> StopPass(ids, jobs, filter, survivors, now)[id] == jobs[id]
    decreases |ids|
  {
    if ids != [] {
      var init := ids[..|ids| - 1];
      assert forall id :: id in ids <==> id in init || id == ids[|ids| - 1];
      StopPassLookup(init, jobs, filter, survivors, now);
    }
  }

  /** One more step of the pass, reading the record the table holds at that point. */
  lemma StopPassStep(ids: seq<string>, i: nat, jobs: map<string, Job>, filter: Option<string>,
                     survivors: set<(string, nat)>, now: real)
    requires i < |ids| && Distinct(ids) && AllIn(ids, jobs)
    ensures ids[i] in StopPass(ids[..i], jobs, filter, survivors, now)
    ensures StopPass(ids[..i], jobs, filter, survivors, now)[ids[i]] == jobs[ids[i]]
    ensures StopPass(ids[..i + 1], jobs, filter, survivors, now)
         == StopPass(ids[..i], jobs, filter, survivors, now)[ids[i] :=
              StopIfDue(StopPass(ids[..i], jobs, filter, survivors, now)[ids[i]], filter, survivors, now)]
  {
    StopPassLookup(ids[..i], jobs, filter, survivors, now);
    assert ids[i] !in ids[..i] by {
      forall j | 0 <= j < i
        ensures ids[..i][j] != ids[i]
      {
      }
    }
    assert ids[..i + 1][..i] == ids[..i];
  }

  /** A pass over every key stops exactly what `StoppedAll` stops. */
  lemma StopPassComplete(ids: seq<string>, jobs: map<string, Job>, filter: Option<string>,
                         survivors: set<(string, nat)>, now: real)
    requires AllIn(ids, jobs) && forall id :: id in jobs ==> id in ids
    ensures StopPass(ids, jobs, filter, survivors, now) == StoppedAll(jobs, filter, survivors, now)
  {
    StopPassLookup(ids, jobs, filter, survivors, now);
  }

  /** The record after `_cleanup_job`: running becomes completed, process handles are dropped. */
  function Reaped(job: Job, now: real): (r: Job)
    ensures ReportedStatus(r) != Running
    ensures r.processes.None? && r.stopEvent.None?
    ensures job.status == Running ==> r.status == Completed && r.completedAt == Some(now)
    ensures job.status != Running ==> r.status == job.status && r.completedAt == job.completedAt
    ensures r.stoppedAt == job.stoppedAt && r.config == job.config && r.jobType == job.jobType
  {
    var settled := if job.status == Running then job.(status := Completed, completedAt := Some(now)) else job;
    settled.(processes := None, stopEvent := None)
  }

  /** Reaping a reaped record changes nothing, whenever the second reaper runs. */
  lemma ReapingIsIdempotent(job: Job, first: real, second: real)
    ensures Reaped(Reaped(job, first), second) == Reaped(job, first)
  {
  }

  /** `cleanup_thread`'s delay: the job's duration plus the buffer, so the reaper runs after the workers' deadline. */
  function CleanupDelay(durationSeconds: real): (wait: real)
    ensures wait == durationSeconds + JOB_CLEANUP_BUFFER_SECONDS as real
    ensures wait > durationSeconds
  {
    durationSeconds + JOB_CLEANUP_BUFFER_SECONDS as real
  }

  /** The time `clear_completed` ages a finished job from: completion, else the stop. */
  function FinishedAt(job: Job): Option<real> {
    if job.completedAt.Some? then job.completedAt else job.stoppedAt
  }

  /**
   * `clear_completed`'s test for one job: a completed or stopped job whose
   * completion time, or failing that its stop time, lies more than `maxAge` before `now`.
   */
  predicate Evictable(job: Job, now: real, maxAge: real)
    ensures Evictable(job, now, maxAge) ==> job.status == Completed || job.status == Stopped
    ensures Evictable(job, now, maxAge) && job.completedAt.Some? ==> now - job.completedAt.value > maxAge
    ensures Evictable(job, now, maxAge) && job.completedAt.None? ==>
      job.stoppedAt.Some? && now - job.stoppedAt.value > maxAge
    ensures ((job.status == Completed || job.status == Stopped) && job.completedAt.Some?
             && now - job.completedAt.value > maxAge) ==> Evictable(job, now, maxAge)
    ensures ((job.status == Completed || job.status == Stopped) && job.completedAt.None? && job.stoppedAt.Some?
             && now - job.stoppedAt.value > maxAge) ==> Evictable(job, now, maxAge)
  {
    (job.status == Completed || job.status == Stopped)
    && FinishedAt(job).Some? && now - FinishedAt(job).value > maxAge
  }

  function EvictableIds(jobs: map<string, Job>, now: real, maxAge: real): set<string> {
    set id | id in jobs && Evictable(jobs[id], now, maxAge)
  }

  /** Eviction never removes a job the table still holds as running, nor one finished within `maxAge`. */
  lemma EvictionSparesLiveAndRecent(jobs: map<string, Job>, now: real, maxAge: real, id: string)
    requires id in jobs
    requires jobs[id].status == Running || jobs[id].status == Failed
          || (FinishedAt(jobs[id]).Some? && now - FinishedAt(jobs[id]).value <= maxAge)
    ensures id !in EvictableIds(jobs, now, maxAge)
  {
  }

  lemma {:induction false} DistinctCardinality(ids: seq<string>)
    requires Distinct(ids)
    ensures |set id | id in ids| == |ids|
    decreases |ids|
  {
    if ids != [] {
      var init := ids[..|ids| - 1];
      DistinctCardinality(init);
      assert (set id | id in ids) == (set id | id in init) + {ids[|ids| - 1]};
    }
  }

  /** The body of `stop_all_jobs`' loop for one id. */
  method StopOne(table: map<string, Job>, id: string, filter: Option<string>, survivors: set<(string, nat)>, now: real)
    returns (after: map<string, Job>, due: bool)
    requires id in table
    ensures due == ShouldStop(filter, table[id])
    ensures after == table[id := StopIfDue(table[id], filter, survivors, now)]
  {
    var job := table[id];
    due := job.status == Running && Matches(filter, job);
    after := table;
    if due {
      job := StopRecord(job, survivors, now);
      after := table[id := job];
    }
  }

  /** The loop of `stop_all_jobs` over the table in key order. */
  method StopMatching(ids: seq<string>, jobs: map<string, Job>, filter: Option<string>,
                      survivors: set<(string, nat)>, now: real)
    returns (table: map<string, Job>, stopped: seq<string>)
    requires Distinct(ids)
    requires AllIn(ids, jobs) && forall id :: id in jobs ==> id in ids
    ensures stopped == ToStop(ids, jobs, filter)
    ensures table == StoppedAll(jobs, filter, survivors, now)
  {
    table := jobs;
    stopped := [];
    var i := 0;
    while i < |ids|
      invariant 0 <= i <= |ids|
      invariant stopped == ToStop(ids[..i], jobs, filter)
      invariant table == StopPass(ids[..i], jobs, filter, survivors, now)
    {
      ToStopStep(ids, i, jobs, filter);
      StopPassStep(ids, i, jobs, filter, survivors, now);
      var id := ids[i];
      var due;
      table, due := StopOne(table, id, filter, survivors, now);
      if due {
        stopped := stopped + [id];
      }
      i := i + 1;
    }
    assert ids[..i] == ids;
    StopPassComplete(ids, jobs, filter, survivors, now);
  }

  /** The matching jobs `get_all_jobs` reports as running. */
  function ActiveIds(jobs: map<string, Job>, filter: Option<string>): set<string> {
    set id | id in jobs && Matches(filter, jobs[id]) && ReportedStatus(jobs[id]) == Running
  }

  /** The ids of the listed jobs whose reported status is running. */
  function RunningIds(views: seq<JobView>): set<string> {
    set k | 0 <= k < |views| && views[k].status == Running :: views[k].jobId
  }

  /** The sum in `get_active_count` over the listed jobs. */
  method CountRunning(views: seq<JobView>) returns (count: nat)
    requires forall i, j :: 0 <= i < j < |views| ==> views[i].jobId != views[j].jobId
    ensures count == |RunningIds(views)|
  {
    count := 0;
    var i := 0;
    while i < |views|
      invariant 0 <= i <= |views|
      invariant count == |RunningIds(views[..i])|
    {
      assert views[..i + 1][..i] == views[..i];
      assert views[i].jobId !in RunningIds(views[..i]);
      if views[i].status == Running {
        assert RunningIds(views[..i + 1]) == RunningIds(views[..i]) + {views[i].jobId};
        count := count + 1;
      } else {
        assert RunningIds(views[..i + 1]) == RunningIds(views[..i]);
      }
      i := i + 1;
    }
    assert views[..i] == views;
  }

  // ---------------------------------------------------------------------------
  // The manager

  class JobManager {
    /** The `_jobs` dictionary. */
    var jobs: map<string, Job>
    /** Its keys in insertion order. */
    var order: seq<string>

    ghost predicate Valid()
      reads this
    {
      Distinct(order)
      && (forall id :: id in jobs <==> id in order)
      && (forall id :: id in jobs ==> jobs[id].jobId == id)
    }

    constructor()
      ensures Valid()
      ensures jobs == map[] && order == []
    {
      jobs := map[];
      order := [];
    }

    /** `register_job`: replaces any record under `jobId`; a new id goes last. */
    method RegisterJob(jobId: string, jobType: string, config: map<string, Json>, processes: seq<bool>, now: real)
      requires Valid()
      modifies this
      ensures Valid()
      ensures jobs == old(jobs)[jobId := Registered(jobId, jobType, config, processes, now)]
      ensures order == if jobId in old(jobs) then old(order) else old(order) + [jobId]
    {
      if jobId !in jobs {
        order := order + [jobId];
      }
      jobs := jobs[jobId := Registered(jobId, jobType, config, processes, now)];
    }

    /** `get_job`. */
    function GetJob(jobId: string): (r: Option<Job>)
      reads this
      ensures r.Some? <==> jobId in jobs
      ensures r.Some? ==> r.value == jobs[jobId]
    {
      if jobId in jobs then Some(jobs[jobId]) else None
    }

    /** `get_all_jobs`: the matching jobs in insertion order, each as its view. */
    method GetAllJobs(filter: Option<string>) returns (views: seq<JobView>)
      requires Valid()
      ensures |views| == |Listed(order, jobs, filter)|
      ensures forall k :: 0 <= k < |views| ==> views[k] == ViewOf(jobs[Listed(order, jobs, filter)[k]])
      ensures forall k :: 0 <= k < |views| ==> views[k].jobId == Listed(order, jobs, filter)[k]
    {
      views := [];
      var i := 0;
      while i < |order|
        invariant 0 <= i <= |order|
        invariant |views| == |Listed(order[..i], jobs, filter)|
        invariant forall k :: 0 <= k < |views| ==> views[k] == ViewOf(jobs[Listed(order[..i], jobs, filter)[k]])
      {
        assert order[..i + 1][..i] == order[..i];
        var job := jobs[order[i]];
        if Matches(filter, job) {
          views := views + [ViewOf(job)];
        }
        i := i + 1;
      }
      assert order[..i] == order;
    }

    /** `stop_job`: false for an unknown id; otherwise terminates, marks stopped and stamps `now`. */
    method StopJob(jobId: string, survivors: set<(string, nat)>, now: real) returns (found: bool)
      requires Valid()
      modifies this
      ensures Valid()
      ensures found <==> jobId in old(jobs)
      ensures order == old(order)
      ensures found ==> jobs == old(jobs)[jobId := StoppedJob(old(jobs)[jobId], survivors, now)]
      ensures !found ==> jobs == old(jobs)
    {
      if jobId !in jobs {
        return false;
      }
      var job := StopRecord(jobs[jobId], survivors, now);
      jobs := jobs[jobId := job];
      found := true;
    }

    /** `stop_all_jobs`: stops the matching jobs stored as running and returns their ids in order. */
    method StopAllJobs(filter: Option<string>, survivors: set<(string, nat)>, now: real) returns (stopped: seq<string>)
      requires Valid()
      modifies this
      ensures Valid()
      ensures order == old(order)
      ensures stopped == ToStop(old(order), old(jobs), filter)
      ensures jobs == StoppedAll(old(jobs), filter, survivors, now)
    {
      var table;
      table, stopped := StopMatching(order, jobs, filter, survivors, now);
      jobs := table;
    }

    /** `_cleanup_job`, once its delay has passed: reaps the record if it is still there. */
    method CleanupJob(jobId: string, now: real)
      requires Valid()
      modifies this
      ensures Valid()
      ensures order == old(order)
      ensures jobId in old(jobs) ==> jobs == old(jobs)[jobId := Reaped(old(jobs)[jobId], now)]
      ensures jobId !in old(jobs) ==> jobs == old(jobs)
    {
      if jobId !in jobs {
        return;
      }
      jobs := jobs[jobId := Reaped(jobs[jobId], now)];
    }

    /** `get_active_count`: how many matching jobs are reported running. */
    method GetActiveCount(filter: Option<string>) returns (count: nat)
      requires Valid()
      ensures count == |ActiveIds(jobs, filter)|
    {
      var views := GetAllJobs(filter);
      ListedMembers(order, jobs, filter);
      ghost var listed := Listed(order, jobs, filter);
      count := CountRunning(views);
      assert RunningIds(views) == ActiveIds(jobs, filter) by {
        forall id | id in ActiveIds(jobs, filter)
          ensures id in RunningIds(views)
        {
          var k :| 0 <= k < |listed| && listed[k] == id;
          assert views[k].jobId == id;
        }
      }
    }

    /** The first loop of `clear_completed`: the ids to evict, in table order. */
    method EvictionCandidates(maxAge: real, now: real) returns (toRemove: seq<string>)
      requires Valid()
      ensures Distinct(toRemove)
      ensures Elements(toRemove) == EvictableIds(jobs, now, maxAge)
    {
      toRemove := [];
      var i := 0;
      while i < |order|
        invariant 0 <= i <= |order|
        invariant Distinct(toRemove)
        invariant forall id :: id in toRemove <==> id in order[..i] && Evictable(jobs[id], now, maxAge)
      {
        assert order[..i + 1] == order[..i] + [order[i]];
        if Evictable(jobs[order[i]], now, maxAge) {
          toRemove := toRemove + [order[i]];
        }
        i := i + 1;
      }
      assert order[..i] == order;
    }

    /** `clear_completed`: evicts finished jobs older than `maxAge` and says how many. */
    method ClearCompleted(maxAge: real, now: real) returns (removed: nat)
      requires Valid()
      modifies this
      ensures Valid()
      ensures jobs.Keys == old(jobs).Keys - EvictableIds(old(jobs), now, maxAge)
      ensures forall id :: id in jobs ==> jobs[id] == old(jobs)[id]
      ensures order == Remove(old(order), EvictableIds(old(jobs), now, maxAge))
      ensures removed == |EvictableIds(old(jobs), now, maxAge)|
    {
      var toRemove := EvictionCandidates(maxAge, now);
      DistinctCardinality(toRemove);
      var table := jobs;
      var ids := order;
      removed := 0;
      var k := 0;
      assert Elements(toRemove[..0]) == {};
      RemoveNothing(order);
      while k < |toRemove|
        invariant 0 <= k <= |toRemove|
        invariant jobs == old(jobs) && order == old(order)
        invariant removed == k
        invariant table.Keys == jobs.Keys - Elements(toRemove[..k])
        invariant forall id :: id in table ==> table[id] == jobs[id]
        invariant ids == Remove(order, Elements(toRemove[..k]))
      {
        assert Elements(toRemove[..k + 1]) == Elements(toRemove[..k]) + {toRemove[k]} by {
          assert toRemove[..k + 1] == toRemove[..k] + [toRemove[k]];
        }
        RemoveTwice(order, Elements(toRemove[..k]), {toRemove[k]});
        table := table - {toRemove[k]};
        ids := Remove(ids, {toRemove[k]});
        removed := removed + 1;
        k := k + 1;
      }
      assert toRemove[..k] == toRemove;
      RemoveMembers(order, Elements(toRemove));
      jobs := table;
      order := ids;
    }
  }
}
