# load-harness core, modelled in Dafny

load-harness is a Flask service that generates CPU and memory load on
demand. A request is validated by a worker (`CPUWorker` or `MemoryWorker`),
the worker's loop runs in one or more child processes, and the `JobManager`
registry tracks every job: its processes, its stop event, its status and
its timestamps. Middleware in front of the routes decides API-key
authentication and adds security headers to every response. A metrics
provider merges per-pod CPU and memory samples for the dashboard.

This project models that core, one Dafny module per source file:

- `Values`: Option, Result and `Json`, a dynamically typed value with Python's `isinstance` rules. A `bool` counts as an `int`.
- `Constants`: the limits, defaults, timeouts, page size and id prefixes of `constants.py`.
- `WorkerBase` (`workers/base.py`):
  - the job configuration and its dictionary form;
  - the `JobStatus` record as a class whose transitions update its fields;
  - job-id generation;
  - the polling rule shared by every worker loop.
- `MemoryWorker` and `CpuWorker` (`workers/memory_worker.py`, `workers/cpu_worker.py`):
  - validation, with every error message as the source writes it;
  - the configuration records;
  - the memory worker's page-touch loop over an `array`;
  - the hold loop and the CPU worker's batched busy loop.
- `JobManagerService` (`services/job_manager.py`): the registry as a class with a `map` of job records plus the dictionary's insertion order. It has one method per locked operation and the reaper step as an explicit method.
- `Auth` (`middleware/auth.py`): where the API key comes from, and the request decision.
- `SecurityHeaders` (`middleware/security_headers.py`): the header table updated in place, and the Content Security Policy.
- `MetricsProvider` (`services/metrics_provider.py`):
  - the per-pod merge of CPU and memory samples, sorted by name;
  - the HPA predicate;
  - the local provider's pod list;
  - the provider choice.

The model's environment:

- Clocks are parameters. The worker loops read a trace of `Observation`s: the clock reading of each loop check, and whether the stop event was set then.
- Worker processes are liveness bits.
- Which processes survive the one-second `join` after `terminate()` is a parameter, `survivors`. That makes termination best-effort, as it is in the source.

A job's status is not monotonic: `stop_job` marks any job stopped and
stamps `stopped_at` again, whatever its stored status. A job reaped as
completed and then stopped therefore carries both `completed_at` and
`stopped_at`. The model follows the code (`JobManagerService.StoppedJob`
and `JobManagerService.JobManager.StopJob`).

## Model

| member | source | states |
|---|---|---|
| Values.GetOr | applications/load-harness/src/load_harness/workers/memory_worker.py:65-66 | `dict.get(key, default)`: the stored value when the key is present, the default otherwise |
| Values.Truncate | applications/load-harness/src/load_harness/workers/memory_worker.py:91 | `int(x)` truncates toward zero: for x ≥ 0 the result r has r ≤ x < r+1; for x < 0, r−1 < x ≤ r |
| WorkerBase.JobConfig.ToDict | applications/load-harness/src/load_harness/workers/base.py:26-31 | the dictionary has exactly the keys `job_id` and `duration_seconds`, holding the record's values |
| WorkerBase.JobConfigRoundTrip | applications/load-harness/src/load_harness/workers/base.py:17-31 | reading a configuration back from its dictionary gives the same configuration |
| WorkerBase.JobStatus.Running | applications/load-harness/src/load_harness/workers/base.py:46-54 | a fresh record is running, started now, with the given id and config and no completion, stop or error |
| WorkerBase.JobStatus.MarkCompleted | applications/load-harness/src/load_harness/workers/base.py:56-59 | status becomes completed with `completed_at` = now; every other field is unchanged |
| WorkerBase.JobStatus.MarkStopped | applications/load-harness/src/load_harness/workers/base.py:61-64 | status becomes stopped with `stopped_at` = now; every other field is unchanged |
| WorkerBase.JobStatus.MarkFailed | applications/load-harness/src/load_harness/workers/base.py:66-70 | status becomes failed with `completed_at` = now and the error message; `stopped_at` and the rest are unchanged |
| WorkerBase.JobStatus.ToDict | applications/load-harness/src/load_harness/workers/base.py:72-86 | always has `job_id`, `status`, `started_at` and `config`; has `completed_at` or `stopped_at` exactly when set, and `error` exactly when it is a non-empty message |
| WorkerBase.Decimal | applications/load-harness/src/load_harness/workers/base.py:146 | `str(n)` is a non-empty string of digits with no leading zero except for 0 itself |
| WorkerBase.GenerateJobId | applications/load-harness/src/load_harness/workers/base.py:143-146 | the id is the prefix followed by a non-empty run of digits |
| WorkerBase.JobIdRoundTrip | applications/load-harness/src/load_harness/workers/base.py:143-146 | the millisecond reading can be parsed back out of an id of the same prefix |
| WorkerBase.JobIdsCollideOnlyOnSameMillisecond | applications/load-harness/src/load_harness/workers/base.py:143-146 | two ids of one prefix are equal if and only if their millisecond readings are equal |
| WorkerBase.FirstExit | applications/load-harness/src/load_harness/workers/memory_worker.py:120-123 | the check at which a polling loop exits ends the loop, and no earlier check does |
| MemoryWorker.MemoryJobConfig.ToDict | applications/load-harness/src/load_harness/workers/memory_worker.py:29-35 | exactly `job_id`, `duration_seconds` and `size_mb`, holding the record's values |
| MemoryWorker.MemoryConfigRoundTrip | applications/load-harness/src/load_harness/workers/memory_worker.py:24-35 | reading a memory configuration back from its dictionary gives the same configuration |
| MemoryWorker.ValidateConfig | applications/load-harness/src/load_harness/workers/memory_worker.py:53-92 | accepted iff the (defaulted) size is a number in [1, 2048] and the duration a number in [5, 300]; otherwise the first failing check's exact message; on success `size_mb` is the truncated size, the duration is kept as given and the id is `mem_` + the clock reading |
| MemoryWorker.DefaultsWhenAbsent | applications/load-harness/src/load_harness/workers/memory_worker.py:65-66 | an empty request is accepted as 50 MB for 30 seconds |
| MemoryWorker.RevalidationKeepsConfig | applications/load-harness/src/load_harness/workers/memory_worker.py:53-92 | validating the dictionary of a validated configuration gives the same configuration with a fresh id |
| MemoryWorker.PageRangeMembers | applications/load-harness/src/load_harness/workers/memory_worker.py:114 | `range(start, stop, 4096)` holds exactly the x in [start, stop) that lie a multiple of 4096 past start |
| MemoryWorker.PageRangeLength | applications/load-harness/src/load_harness/workers/memory_worker.py:114 | that range has ⌈(stop − start) / 4096⌉ elements |
| MemoryWorker.PagesPerMegabyte | applications/load-harness/src/load_harness/workers/memory_worker.py:110-115 | a buffer of n MiB is touched at 256·n offsets |
| MemoryWorker.PageOffsetIsMultipleOf256 | applications/load-harness/src/load_harness/workers/memory_worker.py:115 | every touched offset is a multiple of 256, so `i % 256` writes 0 |
| MemoryWorker.TouchKeepsZeroBuffer | applications/load-harness/src/load_harness/workers/memory_worker.py:111-115 | touching a zero-filled buffer leaves it all zero |
| MemoryWorker.TouchPages | applications/load-harness/src/load_harness/workers/memory_worker.py:114-115 | the loop writes exactly the offsets 0, 4096, 8192, … below the length, in order; each written byte is its offset mod 256 and every other byte is unchanged |
| MemoryWorker.AllocateAndTouch | applications/load-harness/src/load_harness/workers/memory_worker.py:110-115 | a fresh buffer of the requested length, touched at every page start, and all zero afterwards |
| MemoryWorker.Hold | applications/load-harness/src/load_harness/workers/memory_worker.py:120-123 | the hold loop sleeps once per check before the first check at which the deadline has passed or the stop event is set |
| MemoryWorker.Execute | applications/load-harness/src/load_harness/workers/memory_worker.py:94-134 | the result reports the job's id and `size_mb`, and `bytes_allocated` = `size_mb` · 1024 · 1024 |
| MemoryWorker.WorkerTarget | applications/load-harness/src/load_harness/workers/memory_worker.py:137-181 | the result reports the given id and size, and the buffer held has `size_mb` · 1024 · 1024 bytes |
| CpuWorker.CpuAndMemoryIdsNeverCollide | applications/load-harness/src/load_harness/workers/cpu_worker.py:63-65 | a CPU job id (`job_`) never equals a memory job id (`mem_`), whatever the two clock readings |
| CpuWorker.CpuJobConfig.ToDict | applications/load-harness/src/load_harness/workers/cpu_worker.py:33-40 | exactly `job_id`, `duration_seconds`, `cores` and `intensity`, holding the record's values |
| CpuWorker.CpuConfigRoundTrip | applications/load-harness/src/load_harness/workers/cpu_worker.py:27-40 | reading a CPU configuration back from its dictionary gives the same configuration |
| CpuWorker.IntText | applications/load-harness/src/load_harness/workers/cpu_worker.py:88-91 | the f-string rendering of an int-typed value: decimal notation, with a leading `-` for a negative int, and `True`/`False` for a boolean |
| CpuWorker.ValidateConfig | applications/load-harness/src/load_harness/workers/cpu_worker.py:67-118 | accepted iff the (defaulted) cores is an int in [1, 16] and within the available cores, the duration is a number in [10, 900] and the intensity an int in [1, 10]; otherwise the first failing check's exact message, in the order cores, duration, intensity; on success exactly those values with id `job_` + the clock reading |
| CpuWorker.DefaultsWhenAbsent | applications/load-harness/src/load_harness/workers/cpu_worker.py:79-81 | an empty request is accepted as 1 core, 60 seconds, intensity 5 |
| CpuWorker.TooManyCoresMessage | applications/load-harness/src/load_harness/workers/cpu_worker.py:88-91 | asking for more cores than available fails with the message naming both counts |
| CpuWorker.RevalidationKeepsConfig | applications/load-harness/src/load_harness/workers/cpu_worker.py:67-118 | validating the dictionary of a validated configuration gives the same configuration with a fresh id |
| CpuWorker.BusyLoop | applications/load-harness/src/load_harness/workers/cpu_worker.py:139-149 | the iteration count is the batch size times the number of checks before the first one that ends the loop, so it is a whole number of batches; zero when the stop event is set at the first check |
| CpuWorker.Execute | applications/load-harness/src/load_harness/workers/cpu_worker.py:120-159 | the result reports the job id and intensity and `intensity`·1000 iterations per completed batch |
| CpuWorker.WorkerTarget | applications/load-harness/src/load_harness/workers/cpu_worker.py:162-200 | the result reports the worker id and `complexity`·1000 iterations per completed batch |
| Auth.ResolveApiKey | applications/load-harness/src/load_harness/middleware/auth.py:44-48 | an override holding `API_KEY` wins even when its value is None; otherwise the environment's key |
| Auth.CompareDigest | applications/load-harness/src/load_harness/middleware/auth.py:77 | `hmac.compare_digest` on strings raises unless both are ASCII, and otherwise answers equality |
| Auth.Authenticate | applications/load-harness/src/load_harness/middleware/auth.py:56-104 | with no key everything is allowed; otherwise a request is allowed iff its path is public, the session is authenticated or the header key matches; a non-ASCII key comparison raises; a refused `/` or `/ui/…` request is redirected to login, any other gets 401 with the fixed error body |
| Auth.WrongKeyNeverAllowed | applications/load-harness/src/load_harness/middleware/auth.py:76-104 | without a session, a missing or different key never gets a protected path through, whatever its characters; when both keys are ASCII and the path is no UI entry, it gets 401 |
| Auth.StaticAssetsArePublic | applications/load-harness/src/load_harness/middleware/auth.py:19-21 | every path under `/flasgger_static/` is allowed, whatever the credentials |
| SecurityHeaders.DirectiveInPolicy | applications/load-harness/src/load_harness/middleware/security_headers.py:33-43 | every directive of the list occurs in the joined policy |
| SecurityHeaders.PolicyHasRequiredDirectives | applications/load-harness/src/load_harness/middleware/security_headers.py:33-43 | the policy contains `default-src 'self'`, `frame-ancestors 'none'`, `base-uri 'self'` and `form-action 'self'` |
| SecurityHeaders.Secured | applications/load-harness/src/load_harness/middleware/security_headers.py:71-120 | every always-written header holds its fixed value, Cache-Control is present, and HSTS is present outside debug mode |
| SecurityHeaders.Response.AddSecurityHeaders | applications/load-harness/src/load_harness/middleware/security_headers.py:65-122 | the header table after the hook is `Secured` of the table before it |
| SecurityHeaders.FixedHeadersPresent | applications/load-harness/src/load_harness/middleware/security_headers.py:71-111 | afterwards the legacy headers, the CSP, the permissions policy, both cross-origin policies and the referrer policy hold their fixed values |
| SecurityHeaders.HstsOnlyOutsideDebug | applications/load-harness/src/load_harness/middleware/security_headers.py:86-89 | outside debug mode HSTS is set to its fixed value; in debug mode it is present iff it was before, with the old value |
| SecurityHeaders.CacheControlKeptOrDefaulted | applications/load-harness/src/load_harness/middleware/security_headers.py:119-120 | an existing Cache-Control is kept; otherwise it becomes `no-store, max-age=0` |
| SecurityHeaders.OtherHeadersUntouched | applications/load-harness/src/load_harness/middleware/security_headers.py:65-122 | a header the hook does not manage is neither added, removed nor changed |
| SecurityHeaders.SecuredIdempotent | applications/load-harness/src/load_harness/middleware/security_headers.py:65-122 | running the hook twice leaves the same table as running it once |
| MetricsProvider.LastSegment | applications/load-harness/src/load_harness/services/metrics_provider.py:236 | `split("-")[-1]` is a suffix without `-`, preceded by `-` whenever it is not the whole string |
| MetricsProvider.LastSegmentOfJoin | applications/load-harness/src/load_harness/services/metrics_provider.py:236 | the last segment of `prefix-segment` is `segment` when the segment has no dash |
| MetricsProvider.ShortName | applications/load-harness/src/load_harness/services/metrics_provider.py:236 | an empty name gives `unknown`; any other name gives its last dash-separated segment cut to 8 characters |
| MetricsProvider.ShortNameShape | applications/load-harness/src/load_harness/services/metrics_provider.py:236 | a non-empty name's short name is a dash-free prefix of at most 8 characters of its last segment: exactly 8 characters when the segment is that long, all of the segment when it is shorter |
| MetricsProvider.ShortNameOfPod | applications/load-harness/src/load_harness/services/metrics_provider.py:236 | a pod's short name is its generated suffix cut to 8 characters |
| MetricsProvider.LessIrreflexive | applications/load-harness/src/load_harness/services/metrics_provider.py:251 | string order is irreflexive |
| MetricsProvider.LessTransitive | applications/load-harness/src/load_harness/services/metrics_provider.py:251 | string order is transitive |
| MetricsProvider.LessTotal | applications/load-harness/src/load_harness/services/metrics_provider.py:251 | any two distinct strings are ordered one way or the other |
| MetricsProvider.LastValue | applications/load-harness/src/load_harness/services/metrics_provider.py:234-248 | a value for a pod exists iff some sample carries that pod's name |
| MetricsProvider.InsertByName | applications/load-harness/src/load_harness/services/metrics_provider.py:251 | inserting into a name-sorted list keeps it sorted and adds exactly that entry |
| MetricsProvider.EntriesFromCpu | applications/load-harness/src/load_harness/services/metrics_provider.py:234-242 | one entry per pod named by a CPU sample (missing label = `unknown`), with the last sample's value and no memory value |
| MetricsProvider.FillMemory | applications/load-harness/src/load_harness/services/metrics_provider.py:245-248 | memory values are filled in from the last sample of each pod already present; no entry is added |
| MetricsProvider.SortByName | applications/load-harness/src/load_harness/services/metrics_provider.py:251 | the dictionary's values, sorted by name, each exactly once |
| MetricsProvider.CollectPodMetrics | applications/load-harness/src/load_harness/services/metrics_provider.py:226-251 | sorted by name, one entry per pod of the CPU results, each with its short name, the last CPU and memory values for that pod and status running |
| MetricsProvider.HpaScaled | applications/load-harness/src/load_harness/services/metrics_provider.py:212-213 | scaled only when a pod count is present and at least 1 after truncation; for a whole count, scaled iff there are at least two pods |
| MetricsProvider.KubernetesSnapshot | applications/load-harness/src/load_harness/services/metrics_provider.py:203-224 | `hpa_scaled` iff a pod count is present and > 1; the count is truncated; the snapshot is not local |
| MetricsProvider.LocalPodMetrics | applications/load-harness/src/load_harness/services/metrics_provider.py:165-175 | exactly one running pod, without percentages |
| MetricsProvider.LocalPodFollowsNamingRule | applications/load-harness/src/load_harness/services/metrics_provider.py:165-175 | the local pod's short name is what the naming rule gives for its name |
| MetricsProvider.CreateMetricsProvider | applications/load-harness/src/load_harness/services/metrics_provider.py:254-271 | the local provider iff `ENVIRONMENT` is absent or `local` |
| JobManagerService.AliveCount | applications/load-harness/src/load_harness/services/job_manager.py:97-100 | the count of live processes is 0 iff no handle list is left or none of them is alive |
| JobManagerService.Terminated | applications/load-harness/src/load_harness/services/job_manager.py:183-187 | a process is alive afterwards only if it was alive before, and exactly when it was alive and outlived its timed join |
| JobManagerService.TerminateProcesses | applications/load-harness/src/load_harness/services/job_manager.py:183-187 | after the loop, a process is alive iff it was alive and outlived its timed join |
| JobManagerService.TerminationOnlyKills | applications/load-harness/src/load_harness/services/job_manager.py:170-187 | termination never revives a process, never raises the live count, and leaves none alive when none hangs |
| JobManagerService.TerminateJob | applications/load-harness/src/load_harness/services/job_manager.py:170-187 | the stop event is set (when present) and the live processes are terminated; nothing else changes |
| JobManagerService.ReportedStatus | applications/load-harness/src/load_harness/services/job_manager.py:108 | reported running iff a process is alive or the stored status is running; otherwise the stored status |
| JobManagerService.ViewOf | applications/load-harness/src/load_harness/services/job_manager.py:103-120 | the view carries the id, type, config and reported status; a cpu job's view also has `cores_active` = live processes and `cores_requested` = config `cores` (default 0) |
| JobManagerService.WorkerTypeSelectsView | applications/load-harness/src/load_harness/services/job_manager.py:116-118 | a job registered under the CPU worker's type (`cpu`) is listed with its live and requested core counts; one under the memory worker's type (`memory`) is not |
| JobManagerService.Listed | applications/load-harness/src/load_harness/services/job_manager.py:93-95 | every listed id is a stored job that matches the type filter |
| JobManagerService.ListedMembers | applications/load-harness/src/load_harness/services/job_manager.py:93-95 | the listing holds exactly the stored ids whose job matches the filter, each once |
| JobManagerService.ToStop | applications/load-harness/src/load_harness/services/job_manager.py:154-163 | every id `stop_all_jobs` collects is a stored job that matches the filter and was stored as running, and there are no more of them than ids |
| JobManagerService.ToStopMembers | applications/load-harness/src/load_harness/services/job_manager.py:154-162 | `stop_all_jobs` returns exactly the matching ids stored as running |
| JobManagerService.RemoveMembers | applications/load-harness/src/load_harness/services/job_manager.py:291-293 | after removal the order holds exactly the ids not removed, still distinct |
| JobManagerService.RemoveTwice | applications/load-harness/src/load_harness/services/job_manager.py:291-293 | deleting one key after another is deleting them all at once |
| JobManagerService.Registered | applications/load-harness/src/load_harness/services/job_manager.py:57-66 | the stored record has the given id and status running, with no completion or stop time |
| JobManagerService.StoppedJob | applications/load-harness/src/load_harness/services/job_manager.py:137-140 | the record is stopped with `stopped_at` = now whatever its prior status; the stop event is set; id, type, config, start and completion are kept; the live count never grows |
| JobManagerService.StoppedJobReportsStopped | applications/load-harness/src/load_harness/services/job_manager.py:137-140 | when every process dies on termination the job is reported stopped |
| JobManagerService.StopRecord | applications/load-harness/src/load_harness/services/job_manager.py:137-140 | the stop sequence (terminate, mark, stamp) yields `StoppedJob` |
| JobManagerService.StoppedAll | applications/load-harness/src/load_harness/services/job_manager.py:154-162 | the same keys; every matching job stored as running is stopped and every other record is unchanged |
| JobManagerService.SecondStopAllStopsNothing | applications/load-harness/src/load_harness/services/job_manager.py:154-168 | an immediate second `stop_all_jobs` with the same filter stops nothing |
| JobManagerService.StopPassComplete | applications/load-harness/src/load_harness/services/job_manager.py:154-162 | the loop's record-by-record pass over every key equals the whole-table `StoppedAll` |
| JobManagerService.StopMatching | applications/load-harness/src/load_harness/services/job_manager.py:154-168 | the loop's table is `StoppedAll` and its id list is the matching running ids in table order |
| JobManagerService.StopOne | applications/load-harness/src/load_harness/services/job_manager.py:156-163 | the loop body acts iff the job matches and is stored running, and then replaces exactly that record by its stopped form |
| JobManagerService.Reaped | applications/load-harness/src/load_harness/services/job_manager.py:229-245 | afterwards the job is not reported running and its handles are gone; a running job becomes completed at now; any other status and its stamps are kept |
| JobManagerService.ReapingIsIdempotent | applications/load-harness/src/load_harness/services/job_manager.py:229-245 | reaping a reaped record changes nothing |
| JobManagerService.CleanupDelay | applications/load-harness/src/load_harness/services/job_manager.py:205-209 | the reaper waits the job's duration plus the 5-second buffer, so strictly longer than the duration |
| JobManagerService.Evictable | applications/load-harness/src/load_harness/services/job_manager.py:279-288 | a job is evictable iff it is completed or stopped and its `completed_at`, or when that is missing its `stopped_at`, lies more than `max_age` before now |
| JobManagerService.EvictionSparesLiveAndRecent | applications/load-harness/src/load_harness/services/job_manager.py:278-288 | a job stored as running or failed, or finished within `max_age`, is never evicted |
| JobManagerService.CountRunning | applications/load-harness/src/load_harness/services/job_manager.py:262 | the sum counts the distinct listed ids reported running |
| JobManagerService.JobManager.constructor | applications/load-harness/src/load_harness/services/job_manager.py:30-38 | a new manager holds no jobs |
| JobManagerService.JobManager.RegisterJob | applications/load-harness/src/load_harness/services/job_manager.py:40-69 | the record under the id is replaced by a fresh running one; a new id goes last in the order and an existing one keeps its place |
| JobManagerService.JobManager.GetJob | applications/load-harness/src/load_harness/services/job_manager.py:71-81 | nothing for an unknown id, the stored record otherwise |
| JobManagerService.JobManager.GetAllJobs | applications/load-harness/src/load_harness/services/job_manager.py:83-122 | one view per matching job in insertion order, each `ViewOf` its record |
| JobManagerService.JobManager.StopJob | applications/load-harness/src/load_harness/services/job_manager.py:124-143 | false and nothing changed for an unknown id; otherwise true, and only that record becomes `StoppedJob` |
| JobManagerService.JobManager.StopAllJobs | applications/load-harness/src/load_harness/services/job_manager.py:145-168 | the table becomes `StoppedAll`, and the result lists the stopped ids in table order |
| JobManagerService.JobManager.CleanupJob | applications/load-harness/src/load_harness/services/job_manager.py:212-250 | nothing for an unknown id; otherwise only that record is reaped |
| JobManagerService.JobManager.GetActiveCount | applications/load-harness/src/load_harness/services/job_manager.py:252-262 | the number of matching jobs reported running |
| JobManagerService.JobManager.EvictionCandidates | applications/load-harness/src/load_harness/services/job_manager.py:275-288 | the ids, each once, of the completed or stopped jobs whose completion (else stop) time is more than `max_age` before now |
| JobManagerService.JobManager.ClearCompleted | applications/load-harness/src/load_harness/services/job_manager.py:264-296 | exactly those jobs are deleted, the others are unchanged and keep their order, and the count returned is their number |

## Left out

- Threads and the manager's lock. Each locked method is one atomic step. `schedule_cleanup`'s daemon thread and its sleep are left out; the reaper step is `JobManager.CleanupJob`, to be run once `CleanupDelay` has passed.
- The `callback` of `_cleanup_job` is left out. It is code the manager does not own.
- `_cleanup_job`'s own terminate loop is left out. The handles are dropped right after it, so nothing the model keeps can observe its effect.
- Operating-system processes are liveness bits inside the job record. A process that ends on its own between two manager calls is not modelled: liveness only changes through termination.
- Process and event objects are shared by reference in the source; the model copies them as values.
- `get_job` returns the live dictionary, which a caller could mutate. The model returns the record as a value.
- Timestamps are not ISO-8601 strings. The job manager's stamps are instants in seconds (real), `JobStatus`'s stamps are integer instants, and job ids use natural milliseconds. `clear_completed`'s guard against a timestamp that fails to parse cannot fire for stamps the manager writes itself, so that branch is not modelled.
- JobManagerService.StoppedAll: every job stopped by one `stop_all_jobs` call is stamped with the same clock reading `now`. The source reads the clock once per job inside the loop, so its stamps can differ slightly and rise in table order. `clear_completed` ages jobs from these stamps, so eviction times can differ by that spread.
- The default `max_age_seconds` of 300 is not modelled. `ClearCompleted` always takes the age as a parameter.
- `JobConfig`'s default id (a fresh UUID) is left out. Every worker passes a generated id.
- Floating-point work is left out: the CPU accumulator (`sqrt`, `sin`, `% 1_000_000`), the elapsed-time figures in worker results, NaN and infinity. Numbers are exact reals.
- MetricsProvider.CollectPodMetrics: percentages are the sample values as given. `round(value, 1)` is not modelled, for the same reason.
- WorkerBase.FirstExit, MemoryWorker.Hold, CpuWorker.BusyLoop: the trace of clock readings must contain a check that ends the loop (`Finishes`). This is an assumption about the environment: the clock passes the deadline.
- MemoryWorker.Execute: requires a non-negative `size_mb` and a numeric `duration_seconds`, which every validated configuration has. For a negative size `bytearray` would raise; for a non-number the deadline arithmetic would.
- CpuWorker.Execute: requires an int-typed `intensity` and a numeric `duration_seconds`, which every validated configuration has.
- JobManagerService.Registered: the stop event is stored as a fresh, unset event (`Some(false)`), not the caller's event object. Every caller in the service passes a new, unset `Event`, and event objects are not shared in the model (see below).
- Header names are compared exactly. Werkzeug's case-insensitive header table is not modelled.
- Logging is left out, as is everything outside the core:
  - the Flask routes and app wiring;
  - the Prometheus HTTP client;
  - the local provider's psutil-based `collect_metrics` and the queries of the Kubernetes one;
  - the chaos middleware;
  - the dashboard.
