/**
 The entities of backend/models and the settings of backend/config.py that the
 pipeline depends on.
 */
module Models {
  import opened Collections

  datatype TaskStatus =
    | CREATED | PARTITIONED | QUEUED | ASSIGNED | RUNNING | COMPLETED | FAILED | VALIDATED | STORED

  datatype TaskType = CPU | IO | IO_CPU

  datatype FailureType = Transient | Permanent

  /** The part of a task that planning fixes for good. */
  datatype TaskSpec = TaskSpec(
    taskId: string,
    description: string,
    taskType: TaskType,
    priority: int,
    dependencies: seq<string>,
    partition: string)

  /** The value a worker hands back: a dictionary, or anything else. */
  datatype Payload = Dictionary(keys: set<string>) | OtherValue

  /** A task's record in the store; times are hundredths of a second, scores tenths of a point. */
  datatype Task = Task(
    spec: TaskSpec,
    status: TaskStatus,
    assignedWorker: Option<string>,
    result: Option<Payload>,
    qualityScore: Option<int>,
    executionTime: Option<int>,
    retryCount: nat,
    failureType: Option<FailureType>,
    errorMessage: Option<string>,
    kafkaTopic: Option<string>,
    kafkaPartition: Option<int>,
    kafkaOffset: Option<nat>)

  function NewTask(spec: TaskSpec): Task {
    Task(spec, CREATED, None, None, None, None, 0, None, None, None, None, None)
  }

  datatype TaskResult = TaskResult(
    taskId: string,
    workerId: string,
    failed: bool,
    executionTime: int,
    result: Option<Payload>,
    error: Option<string>)

  datatype WorkerState = Idle | Busy | Offline

  datatype WorkerStatus = WorkerStatus(
    workerId: string,
    workerType: string,
    loadPct: int,
    tasksCompleted: nat,
    tasksFailed: nat,
    currentTask: Option<string>,
    status: WorkerState)

  function NewWorker(workerId: string, workerType: string): WorkerStatus {
    WorkerStatus(workerId, workerType, 0, 0, 0, None, Idle)
  }

  datatype ExecutionRecord = ExecutionRecord(taskId: string, workerId: string, executionTime: int)

  datatype FailureLog = FailureLog(
    taskId: string, error: string, failureType: FailureType, retryCount: nat, workerId: string)

  /** Delays in seconds. */
  datatype Settings = Settings(maxRetries: int, retryBaseDelay: real, retryMaxDelay: real)

  const TOPIC_QUEUE_CPU := "task_queue_cpu"
  const TOPIC_QUEUE_IO := "task_queue_io"
  const TOPIC_RESULTS := "task_results"
  const TOPIC_FAILURES := "task_failures"
  const TOPIC_MONITORING := "monitoring_events"

  /** How many retries the settings really grant: a negative limit grants none. */
  function RetryBudget(settings: Settings): nat {
    Max(0, settings.maxRetries)
  }
}
