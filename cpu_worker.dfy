/**
 * The CPU worker (workers/cpu_worker.py): request validation, the
 * configuration record, and the batched busy loop with cooperative
 * cancellation. The floating-point accumulator is not modelled; only the
 * iteration count and the loop's control structure are.
 */
module CpuWorker {
  import opened Values
  import opened Constants
  import opened WorkerBase

  const WORKER_TYPE: string := "cpu"

  /** Operations per batch for each unit of intensity. */
  const OPS_PER_INTENSITY: int := 1000

  /** Ids of CPU jobs and of memory jobs never coincide, whatever their timestamps. */
  lemma CpuAndMemoryIdsNeverCollide(a: nat, b: nat)
    ensures GenerateJobId(CPU_JOB_PREFIX, a) != GenerateJobId(MEMORY_JOB_PREFIX, b)
  {
    assert GenerateJobId(CPU_JOB_PREFIX, a)[0] == 'j';
    assert GenerateJobId(MEMORY_JOB_PREFIX, b)[0] == 'm';
  }

  // ---------------------------------------------------------------------------
  // Configuration

  /** `cores` and `intensity` keep the integer value as given (a boolean passes as an int). */
  datatype CpuJobConfig = CpuJobConfig(durationSeconds: Json, jobId: string, cores: Json, intensity: Json) {
    /** `CPUJobConfig.to_dict`: the base entries plus `cores` and `intensity`. */
    function ToDict(): (d: map<string, Json>)
      ensures d.Keys == {"job_id", "duration_seconds", "cores", "intensity"}
      ensures d["job_id"] == JStr(jobId) && d["duration_seconds"] == durationSeconds
      ensures d["cores"] == cores && d["intensity"] == intensity
    {
      JobConfig(durationSeconds, jobId).ToDict()["cores" := cores]["intensity" := intensity]
    }
  }

  /** Reads a CPU configuration back from its dictionary form. */
  function CpuConfigFromDict(d: map<string, Json>): (r: Option<CpuJobConfig>)
  {
    match JobConfigFromDict(d)
    case None => None
    case Some(base) =>
      if "cores" in d && "intensity" in d then
        Some(CpuJobConfig(base.durationSeconds, base.jobId, d["cores"], d["intensity"]))
      else
        None
  }

  lemma CpuConfigRoundTrip(c: CpuJobConfig)
    ensures CpuConfigFromDict(c.ToDict()) == Some(c)
  {
    JobConfigRoundTrip(JobConfig(c.durationSeconds, c.jobId));
  }

  /** `str(v)` for an int-typed value, as the f-string in the error message renders it. */
  function IntText(v: Json): (s: string)
    requires IsInt(v)
    ensures v.JInt? && v.i >= 0 ==> s == Decimal(v.i)
    ensures v.JInt? && v.i < 0 ==> s == "-" + Decimal(-v.i)
    ensures v.JBool? ==> s == (if v.b then "True" else "False")
  {
    match v
    case JBool(b) => if b then "True" else "False"
    case JInt(i) => if i < 0 then "-" + Decimal(-i) else Decimal(i)
  }

  predicate CoresInRange(v: Json) {
    IsInt(v) && CPU_MIN_CORES <= IntValue(v) <= CPU_MAX_CORES
  }

  predicate DurationAccepted(v: Json) {
    IsNumber(v) && CPU_MIN_DURATION_SECONDS as real <= NumValue(v) <= CPU_MAX_DURATION_SECONDS as real
  }

  predicate IntensityAccepted(v: Json) {
    IsInt(v) && CPU_MIN_INTENSITY <= IntValue(v) <= CPU_MAX_INTENSITY
  }

  /**
   * `CPUWorker.validate_config` for a worker constructed with
   * `available_cores`. Absent fields take their defaults; the checks run in
   * the order cores, duration, intensity and the first failure decides the error.
   */
  function ValidateConfig(data: map<string, Json>, availableCores: int, nowMs: nat): (r: Result<CpuJobConfig>)
    ensures var cores := GetOr(data, "cores", JInt(CPU_DEFAULT_CORES));
            var duration := GetOr(data, "duration_seconds", JInt(CPU_DEFAULT_DURATION_SECONDS));
            var intensity := GetOr(data, "intensity", JInt(CPU_DEFAULT_INTENSITY));
            && (r.Ok? <==> CoresInRange(cores) && IntValue(cores) <= availableCores
                           && DurationAccepted(duration) && IntensityAccepted(intensity))
            && (!IsInt(cores) ==> r == Err("cores must be an integer"))
            && (IsInt(cores) && !CoresInRange(cores) ==> r == Err("cores must be between 1 and 16"))
            && (CoresInRange(cores) && IntValue(cores) > availableCores ==>
                  r == Err("cores (" + IntText(cores) + ") exceeds available cores ("
                           + IntText(JInt(availableCores)) + ")"))
            && (CoresInRange(cores) && IntValue(cores) <= availableCores ==>
                  && (!IsNumber(duration) ==> r == Err("duration_seconds must be a number"))
                  && (IsNumber(duration) && NumValue(duration) < 10.0 ==>
                        r == Err("duration_seconds must be at least 10"))
                  && (IsNumber(duration) && NumValue(duration) > 900.0 ==>
                        r == Err("duration_seconds must be at most 900"))
                  && (DurationAccepted(duration) && !IsInt(intensity) ==>
                        r == Err("intensity must be an integer"))
                  && (DurationAccepted(duration) && IsInt(intensity) && !IntensityAccepted(intensity) ==>
                        r == Err("intensity must be between 1 and 10")))
            && (r.Ok? ==> r.value == CpuJobConfig(duration, GenerateJobId(CPU_JOB_PREFIX, nowMs), cores, intensity))
  {
    var cores := GetOr(data, "cores", JInt(CPU_DEFAULT_CORES));
    var duration := GetOr(data, "duration_seconds", JInt(CPU_DEFAULT_DURATION_SECONDS));
    var intensity := GetOr(data, "intensity", JInt(CPU_DEFAULT_INTENSITY));
    if !IsInt(cores) then
      Err("cores must be an integer")
    else if IntValue(cores) < CPU_MIN_CORES || IntValue(cores) > CPU_MAX_CORES then
      Err("cores must be between 1 and 16")
    else if IntValue(cores) > availableCores then
      Err("cores (" + IntText(cores) + ") exceeds available cores (" + IntText(JInt(availableCores)) + ")")
    else if !IsNumber(duration) then
      Err("duration_seconds must be a number")
    else if NumValue(duration) < CPU_MIN_DURATION_SECONDS as real then
      Err("duration_seconds must be at least 10")
    else if NumValue(duration) > CPU_MAX_DURATION_SECONDS as real then
      Err("duration_seconds must be at most 900")
    else if !IsInt(intensity) then
      Err("intensity must be an integer")
    else if IntValue(intensity) < CPU_MIN_INTENSITY || IntValue(intensity) > CPU_MAX_INTENSITY then
      Err("intensity must be between 1 and 10")
    else
      Ok(CpuJobConfig(duration, GenerateJobId(CPU_JOB_PREFIX, nowMs), cores, intensity))
  }

  /** An empty request is valid on any worker with a core to spare: 1 core, 60 seconds, intensity 5. */
  lemma DefaultsWhenAbsent(availableCores: int, nowMs: nat)
    requires availableCores >= 1
    ensures ValidateConfig(map[], availableCores, nowMs)
         == Ok(CpuJobConfig(JInt(60), GenerateJobId("job_", nowMs), JInt(1), JInt(5)))
  {
  }

  /** Asking for more cores than the worker has fails with the message naming both counts. */
  lemma TooManyCoresMessage(availableCores: nat, cores: nat, nowMs: nat)
    requires 1 <= cores <= 16 && availableCores < cores
    ensures ValidateConfig(map["cores" := JInt(cores)], availableCores, nowMs)
         == Err("cores (" + Decimal(cores) + ") exceeds available cores (" + Decimal(availableCores) + ")")
  {
  }

  /** A validated configuration, serialised and validated again, comes back unchanged but for its fresh id. */
  lemma RevalidationKeepsConfig(data: map<string, Json>, availableCores: int, nowMs: nat, laterMs: nat)
    requires ValidateConfig(data, availableCores, nowMs).Ok?
    ensures var c := ValidateConfig(data, availableCores, nowMs).value;
            ValidateConfig(c.ToDict(), availableCores, laterMs)
              == Ok(c.(jobId := GenerateJobId(CPU_JOB_PREFIX, laterMs)))
  {
  }

  // ---------------------------------------------------------------------------
  // The busy loop

  /** Python's `range(n)` runs `n` times, or not at all for a negative `n`. */
  function RangeCount(n: int): nat {
    if n < 0 then 0 else n
  }

  /**
   * The loop shared by `execute` and `cpu_worker_target`: at each check, stop
   * when the deadline has passed or the stop flag is set, otherwise run one
   * whole batch of `batch` iterations. Returns the iteration count.
   */
  method BusyLoop(batch: int, deadline: real, trace: seq<Observation>) returns (iterations: nat)
    requires Finishes(trace, deadline)
    ensures iterations == RangeCount(batch) * FirstExit(trace, deadline)
    ensures trace[0].stopSet ==> iterations == 0
  {
    var k: nat := 0;
    iterations := 0;
    while trace[k].now < deadline
      invariant k <= FirstExit(trace, deadline)
      invariant iterations == RangeCount(batch) * k
      decreases FirstExit(trace, deadline) - k
    {
      if trace[k].stopSet {
        break;
      }
      var n := 0;
      while n < batch
        invariant 0 <= n <= RangeCount(batch)
        invariant iterations == RangeCount(batch) * k + n
      {
        iterations := iterations + 1;
        n := n + 1;
      }
      k := k + 1;
    }
  }

  datatype CpuResult = CpuResult(jobId: string, iterations: nat, intensity: Json)

  /** `CPUWorker.execute`: batches of `intensity * 1000` until `start + duration_seconds` or the stop flag. */
  method Execute(config: CpuJobConfig, start: real, trace: seq<Observation>) returns (r: CpuResult)
    requires IsNumber(config.durationSeconds) && IsInt(config.intensity)
    requires Finishes(trace, start + NumValue(config.durationSeconds))
    ensures r.jobId == config.jobId && r.intensity == config.intensity
    ensures r.iterations
         == RangeCount(IntValue(config.intensity) * OPS_PER_INTENSITY)
            * FirstExit(trace, start + NumValue(config.durationSeconds))
  {
    var deadline := start + NumValue(config.durationSeconds);
    var iterations := BusyLoop(IntValue(config.intensity) * OPS_PER_INTENSITY, deadline, trace);
    r := CpuResult(config.jobId, iterations, config.intensity);
  }

  datatype TargetResult = TargetResult(workerId: string, iterations: nat)

  /** `cpu_worker_target`: the same loop, with the intensity passed as `complexity`. */
  method WorkerTarget(workerId: string, durationSeconds: real, complexity: int, start: real, trace: seq<Observation>)
    returns (r: TargetResult)
    requires Finishes(trace, start + durationSeconds)
    ensures r.workerId == workerId
    ensures r.iterations == RangeCount(complexity * OPS_PER_INTENSITY) * FirstExit(trace, start + durationSeconds)
  {
    var iterations := BusyLoop(complexity * OPS_PER_INTENSITY, start + durationSeconds, trace);
    r := TargetResult(workerId, iterations);
  }
}
