/**
 * The memory worker (workers/memory_worker.py): request validation, the
 * configuration record, and the allocate / touch-every-page / hold workload.
 */
module MemoryWorker {
  import opened Values
  import opened Constants
  import opened WorkerBase

  const WORKER_TYPE: string := "memory"
  const MIB: nat := 1024 * 1024

  newtype byte = x: int | 0 <= x < 256

  // ---------------------------------------------------------------------------
  // Configuration

  datatype MemoryJobConfig = MemoryJobConfig(durationSeconds: Json, jobId: string, sizeMb: int) {
    /** `MemoryJobConfig.to_dict`: the base entries plus `size_mb`. */
    function ToDict(): (d: map<string, Json>)
      ensures d.Keys == {"job_id", "duration_seconds", "size_mb"}
      ensures d["job_id"] == JStr(jobId) && d["duration_seconds"] == durationSeconds
      ensures d["size_mb"] == JInt(sizeMb)
    {
      JobConfig(durationSeconds, jobId).ToDict()["size_mb" := JInt(sizeMb)]
    }
  }

  /** Reads a memory configuration back from its dictionary form. */
  function MemoryConfigFromDict(d: map<string, Json>): (r: Option<MemoryJobConfig>)
  {
    match JobConfigFromDict(d)
    case None => None
    case Some(base) =>
      if "size_mb" in d && d["size_mb"].JInt? then
        Some(MemoryJobConfig(base.durationSeconds, base.jobId, d["size_mb"].i))
      else
        None
  }

  lemma MemoryConfigRoundTrip(c: MemoryJobConfig)
    ensures MemoryConfigFromDict(c.ToDict()) == Some(c)
  {
    JobConfigRoundTrip(JobConfig(c.durationSeconds, c.jobId));
  }

  /** `size_mb` passes both of its checks. */
  predicate SizeAccepted(v: Json) {
    IsNumber(v) && MEMORY_MIN_SIZE_MB as real <= NumValue(v) <= MEMORY_MAX_SIZE_MB as real
  }

  /** `duration_seconds` passes all three of its checks. */
  predicate DurationAccepted(v: Json) {
    IsNumber(v) && MEMORY_MIN_DURATION_SECONDS as real <= NumValue(v) <= MEMORY_MAX_DURATION_SECONDS as real
  }

  /**
   * `MemoryWorker.validate_config`. Absent fields take their defaults; the
   * checks run in order and the first failing one decides the error. `nowMs`
   * is the millisecond clock reading the job id is made from.
   */
  function ValidateConfig(data: map<string, Json>, nowMs: nat): (r: Result<MemoryJobConfig>)
    ensures var size := GetOr(data, "size_mb", JInt(MEMORY_DEFAULT_SIZE_MB));
            var duration := GetOr(data, "duration_seconds", JInt(MEMORY_DEFAULT_DURATION_SECONDS));
            && (r.Ok? <==> SizeAccepted(size) && DurationAccepted(duration))
            && (!IsNumber(size) ==> r == Err("size_mb must be a number"))
            && (IsNumber(size) && !SizeAccepted(size) ==> r == Err("size_mb must be between 1 and 2048"))
            && (SizeAccepted(size) && !IsNumber(duration) ==> r == Err("duration_seconds must be a number"))
            && (SizeAccepted(size) && IsNumber(duration) && NumValue(duration) < 5.0 ==>
                  r == Err("duration_seconds must be at least 5"))
            && (SizeAccepted(size) && IsNumber(duration) && NumValue(duration) > 300.0 ==>
                  r == Err("duration_seconds must be at most 300"))
            && (r.Ok? ==> r.value.durationSeconds == duration
                          && r.value.sizeMb as real <= NumValue(size) < r.value.sizeMb as real + 1.0
                          && r.value.jobId == GenerateJobId(MEMORY_JOB_PREFIX, nowMs))
    ensures r.Ok? ==> MEMORY_MIN_SIZE_MB <= r.value.sizeMb <= MEMORY_MAX_SIZE_MB
  {
    var size := GetOr(data, "size_mb", JInt(MEMORY_DEFAULT_SIZE_MB));
    var duration := GetOr(data, "duration_seconds", JInt(MEMORY_DEFAULT_DURATION_SECONDS));
    if !IsNumber(size) then
      Err("size_mb must be a number")
    else if NumValue(size) < MEMORY_MIN_SIZE_MB as real || NumValue(size) > MEMORY_MAX_SIZE_MB as real then
      Err("size_mb must be between 1 and 2048")
    else if !IsNumber(duration) then
      Err("duration_seconds must be a number")
    else if NumValue(duration) < MEMORY_MIN_DURATION_SECONDS as real then
      Err("duration_seconds must be at least 5")
    else if NumValue(duration) > MEMORY_MAX_DURATION_SECONDS as real then
      Err("duration_seconds must be at most 300")
    else
      Ok(MemoryJobConfig(duration, GenerateJobId(MEMORY_JOB_PREFIX, nowMs), Truncate(NumValue(size))))
  }

  /** An empty request is valid and asks for 50 MB held for 30 seconds. */
  lemma DefaultsWhenAbsent(nowMs: nat)
    ensures ValidateConfig(map[], nowMs)
         == Ok(MemoryJobConfig(JInt(30), GenerateJobId("mem_", nowMs), 50))
  {
  }

  /** A validated configuration, serialised and validated again, comes back unchanged but for its fresh id. */
  lemma RevalidationKeepsConfig(data: map<string, Json>, nowMs: nat, laterMs: nat)
    requires ValidateConfig(data, nowMs).Ok?
    ensures var c := ValidateConfig(data, nowMs).value;
            ValidateConfig(c.ToDict(), laterMs) == Ok(c.(jobId := GenerateJobId(MEMORY_JOB_PREFIX, laterMs)))
  {
    var c := ValidateConfig(data, nowMs).value;
    assert c.ToDict()["size_mb"] == JInt(c.sizeMb);
    assert Truncate(c.sizeMb as real) == c.sizeMb;
  }

  // ---------------------------------------------------------------------------
  // Page touching

  /** Python's `range(start, stop, MEMORY_PAGE_SIZE_BYTES)`. */
  function PageRange(start: nat, stop: nat): seq<nat>
    decreases stop - start
  {
    if start >= stop then [] else [start] + PageRange(start + MEMORY_PAGE_SIZE_BYTES, stop)
  }

  lemma {:induction false} PageRangeMembers(start: nat, stop: nat, x: nat)
    ensures x in PageRange(start, stop) <==> start <= x < stop && (x - start) % MEMORY_PAGE_SIZE_BYTES == 0
    decreases stop - start
  {
    if start < stop {
      PageRangeMembers(start + MEMORY_PAGE_SIZE_BYTES, stop, x);
    }
  }

  lemma {:induction false} PageRangeLength(start: nat, stop: nat)
    ensures |PageRange(start, stop)|
         == if start >= stop then 0 else (stop - start + MEMORY_PAGE_SIZE_BYTES - 1) / MEMORY_PAGE_SIZE_BYTES
    decreases stop - start
  {
    if start < stop {
      PageRangeLength(start + MEMORY_PAGE_SIZE_BYTES, stop);
    }
  }

  /** A whole number of megabytes has 256 pages per megabyte. */
  lemma PagesPerMegabyte(sizeMb: nat)
    ensures |PageRange(0, sizeMb * MIB)| == 256 * sizeMb
  {
    PageRangeLength(0, sizeMb * MIB);
  }

  /** The buffer after the touch loop: each page's first byte holds its offset modulo 256. */
  function Touched(s: seq<byte>): (t: seq<byte>)
  {
    seq(|s|, i requires 0 <= i < |s| => if i % MEMORY_PAGE_SIZE_BYTES == 0 then (i % 256) as byte else s[i])
  }

  lemma PageOffsetIsMultipleOf256(i: nat)
    requires i % MEMORY_PAGE_SIZE_BYTES == 0
    ensures i % 256 == 0
  {
    var q := i / MEMORY_PAGE_SIZE_BYTES;
    assert i == 256 * (16 * q);
  }

  /** Between two consecutive page starts there is no other. */
  lemma NoPageStartBetween(i: nat, j: nat)
    requires i % MEMORY_PAGE_SIZE_BYTES == 0 && i < j < i + MEMORY_PAGE_SIZE_BYTES
    ensures j % MEMORY_PAGE_SIZE_BYTES != 0
  {
    var q := i / MEMORY_PAGE_SIZE_BYTES;
    assert i == MEMORY_PAGE_SIZE_BYTES * q;
    assert j / MEMORY_PAGE_SIZE_BYTES == q;
  }

  /** Every byte the loop writes is 0, so a zero-filled buffer stays all zero. */
  lemma TouchKeepsZeroBuffer(s: seq<byte>)
    requires forall i :: 0 <= i < |s| ==> s[i] == 0
    ensures Touched(s) == s
  {
    forall i | 0 <= i < |s| && i % MEMORY_PAGE_SIZE_BYTES == 0
      ensures Touched(s)[i] == s[i]
    {
      PageOffsetIsMultipleOf256(i);
    }
  }

  /**
   * The touch loop `for i in range(0, len(block), 4096): block[i] = i % 256`;
   * `written` lists the offsets it writes, in order.
   */
  method TouchPages(block: array<byte>) returns (ghost written: seq<nat>)
    modifies block
    ensures written == PageRange(0, block.Length)
    ensures block[..] == Touched(old(block[..]))
  {
    var i: nat := 0;
    written := [];
    while i < block.Length
      invariant i % MEMORY_PAGE_SIZE_BYTES == 0
      invariant written + PageRange(i, block.Length) == PageRange(0, block.Length)
      invariant forall j :: 0 <= j < block.Length ==>
        block[j] == if j < i && j % MEMORY_PAGE_SIZE_BYTES == 0 then (j % 256) as byte else old(block[j])
      decreases block.Length - i
    {
      block[i] := (i % 256) as byte;
      written := written + [i];
      forall j | i < j < i + MEMORY_PAGE_SIZE_BYTES
        ensures j % MEMORY_PAGE_SIZE_BYTES != 0
      {
        NoPageStartBetween(i, j);
      }
      i := i + MEMORY_PAGE_SIZE_BYTES;
    }
  }

  /** `bytearray(n)` followed by the touch loop. */
  method AllocateAndTouch(bytesToAllocate: nat) returns (block: array<byte>, ghost written: seq<nat>)
    ensures fresh(block) && block.Length == bytesToAllocate
    ensures written == PageRange(0, bytesToAllocate)
    ensures forall i :: 0 <= i < block.Length ==> block[i] == 0
  {
    block := new byte[bytesToAllocate](_ => 0);
    ghost var zeros := block[..];
    written := TouchPages(block);
    TouchKeepsZeroBuffer(zeros);
    assert block[..] == zeros;
  }

  // ---------------------------------------------------------------------------
  // Holding

  /**
   * The hold loop: poll every 100 ms until the deadline passes or the stop
   * flag is set. Returns how many polls slept before the exit.
   */
  method Hold(deadline: real, trace: seq<Observation>) returns (polls: nat)
    requires Finishes(trace, deadline)
    ensures polls == FirstExit(trace, deadline)
  {
    var k: nat := 0;
    while trace[k].now < deadline
      invariant k <= FirstExit(trace, deadline)
      decreases FirstExit(trace, deadline) - k
    {
      if trace[k].stopSet {
        break;
      }
      k := k + 1;
    }
    polls := k;
  }

  datatype MemoryResult = MemoryResult(jobId: string, sizeMb: int, bytesAllocated: nat)

  /**
   * `MemoryWorker.execute`: allocate `size_mb` MiB, touch every page, hold
   * until the deadline `start + duration_seconds` or the stop flag.
   */
  method Execute(config: MemoryJobConfig, start: real, trace: seq<Observation>) returns (r: MemoryResult)
    requires 0 <= config.sizeMb
    requires IsNumber(config.durationSeconds)
    requires Finishes(trace, start + NumValue(config.durationSeconds))
    ensures r.jobId == config.jobId && r.sizeMb == config.sizeMb
    ensures r.bytesAllocated == config.sizeMb * MIB
  {
    var deadline := start + NumValue(config.durationSeconds);
    var bytesToAllocate := config.sizeMb * 1024 * 1024;
    var block, _ := AllocateAndTouch(bytesToAllocate);
    var _ := Hold(deadline, trace);
    r := MemoryResult(config.jobId, config.sizeMb, block.Length);
  }

  datatype TargetResult = TargetResult(jobId: string, sizeMb: int)

  /** `memory_worker_target`: the same workload, reporting the id and size it was given. */
  method WorkerTarget(jobId: string, sizeMb: int, durationSeconds: real, start: real, trace: seq<Observation>)
    returns (r: TargetResult, bytesHeld: nat)
    requires 0 <= sizeMb
    requires Finishes(trace, start + durationSeconds)
    ensures r == TargetResult(jobId, sizeMb)
    ensures bytesHeld == sizeMb * MIB
  {
    var block, _ := AllocateAndTouch(sizeMb * 1024 * 1024);
    var _ := Hold(start + durationSeconds, trace);
    bytesHeld := block.Length;
    r := TargetResult(jobId, sizeMb);
  }
}
