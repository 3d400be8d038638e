/** Limits, defaults and fixed sizes of the load harness (constants.py). */
module Constants {
  const CPU_MAX_CORES: int := 16
  const CPU_MIN_CORES: int := 1
  const CPU_DEFAULT_CORES: int := 1

  const CPU_MAX_DURATION_SECONDS: int := 900
  const CPU_MIN_DURATION_SECONDS: int := 10
  const CPU_DEFAULT_DURATION_SECONDS: int := 60

  const CPU_MAX_INTENSITY: int := 10
  const CPU_MIN_INTENSITY: int := 1
  const CPU_DEFAULT_INTENSITY: int := 5

  const MEMORY_MAX_SIZE_MB: int := 2048
  const MEMORY_MIN_SIZE_MB: int := 1
  const MEMORY_DEFAULT_SIZE_MB: int := 50

  const MEMORY_MAX_DURATION_SECONDS: int := 300
  const MEMORY_MIN_DURATION_SECONDS: int := 5
  const MEMORY_DEFAULT_DURATION_SECONDS: int := 30

  /** Seconds a process gets to exit after `terminate()`. */
  const PROCESS_TERMINATE_TIMEOUT: int := 1
  /** Seconds the reaper waits beyond a job's duration. */
  const JOB_CLEANUP_BUFFER_SECONDS: int := 5

  /** Stride of the page-touch loop of the memory worker. */
  const MEMORY_PAGE_SIZE_BYTES: nat := 4096

  const CPU_JOB_PREFIX: string := "job_"
  const MEMORY_JOB_PREFIX: string := "mem_"
}
