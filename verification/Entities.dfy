/** The rows the control plane keeps, and the whole of its state as one value. */
module Entities {
  import opened Model
  import opened Retry

  /** One node of a run's plan. cond is the raw text of the job's if:, and namesStatus
      whether that text, once parsed, calls a status function. */
  datatype PlannedJob = PlannedJob(
    key: string,
    matrixKey: string,
    needs: seq<string>,
    labels: seq<string>,
    cond: string,
    namesStatus: bool,
    retry: RetryPolicy,
    group: string,
    cancelInProgress: bool,
    failFast: bool,
    maxParallel: int,
    continueOnError: bool,
    timeoutMinutes: int)

  datatype Plan = Plan(jobs: seq<PlannedJob>, runGroup: string, runCancelInProgress: bool)

  datatype Run = Run(
    id: int,
    attempt: int,
    createdAt: int,
    forkPR: bool,
    approved: bool,
    status: Status,
    conclusion: Conclusion,
    cancel: Option<CancelReason>,
    startedAt: Option<int>,
    completedAt: Option<int>)

  datatype Job = Job(
    id: int,
    runID: int,
    key: string,
    matrixKey: string,
    needs: seq<string>,
    labels: seq<string>,
    attempt: int,
    status: Status,
    conclusion: Conclusion,
    fault: FailureClass,
    cancel: Option<CancelReason>,
    group: string,
    continueOnError: bool,
    timeoutMinutes: int,
    runnerID: string,
    awaitingApproval: bool,
    outputs: map<string, string>,
    queuedAt: Option<int>,
    startedAt: Option<int>,
    setupCompletedAt: Option<int>,
    completedAt: Option<int>,
    leaseExpiresAt: Option<int>,
    infraRetryCount: int)

  /** A queue row; while leased it names the runner and the end of the lease. */
  datatype Row = Row(
    labels: seq<string>,
    group: string,
    queuedAt: int,
    notBefore: int,
    leased: bool,
    runnerID: string,
    leaseExpiresAt: int)

  datatype Step = Step(number: int, status: Status, startedAt: Option<int>)

  /** Requeued is the audit row of a lost runner, Released that of a runner which
      gave its job back. */
  datatype EventKind =
    | RunStarted | RunCompleted | JobQueued | JobWaiting | Dispatched | SetupDone
    | Retried | Requeued | Released | JobCancelled | JobSkipped | JobCompleted
    | Classified | RerunAsked | Restricted

  /** until is the end of the backoff on a Retried event and 0 elsewhere. */
  datatype Event = Event(kind: EventKind, runID: int, jobID: int, attempt: int, at: int, until: int)

  /** Everything the store and the scheduler hold. origin remembers which plan
      each run was started from; nothing in the program reads it. */
  datatype World = World(
    runs: map<int, Run>,
    nextRun: int,
    jobs: map<int, Job>,
    nextJob: int,
    queue: map<int, Row>,
    steps: map<(int, int), seq<Step>>,
    events: seq<Event>,
    plans: map<int, Plan>,
    stepTimeouts: map<int, map<int, int>>,
    origin: map<int, Plan>)

  const EmptyWorld := World(map[], 1, map[], 1, map[], map[], [], map[], map[], map[])

  /** One entry of the needs context an expression sees. */
  datatype NeedEntry = NeedEntry(outputs: map<string, string>, result: NeedResult)

  datatype NeedsState = NeedsState(
    ready: bool,
    context: map<string, NeedEntry>,
    success: bool,
    failure: bool,
    cancelled: bool)

  /** The scheduler's configuration. eval stands for the expression evaluator: any
      function of the plan's contexts, the leg, and what its needs add up to, None where
      the expression does not evaluate. */
  datatype Options = Options(
    eval: (Plan, PlannedJob, NeedsState) -> Option<bool>,
    leaseTTL: int,
    setupTimeout: int,
    defaultJobTimeout: int,
    runTimeout: int,
    requireForkApproval: bool)

  /** The outcome of one attempt, as a runner reports it or the scheduler rules. */
  datatype Result = Result(
    conclusion: Conclusion,
    fault: FailureClass,
    classReason: string,
    outputs: Option<map<string, string>>,
    cancel: Option<CancelReason>)
  {
    predicate Valid() {
      && conclusion.Valid()
      && fault.Valid()
      && (conclusion == Cancelled ==> cancel.Some?)
      && (cancel.Some? ==> cancel.value.Valid())
      && (conclusion.IsFailure() ==> fault != ClassNone)
    }
  }

  /** Neither queued before, nor held for approval, nor over: admission has yet to look at it. */
  predicate Pending(j: Job) {
    !j.status.Completed? && j.queuedAt.None? && !j.awaitingApproval
  }

  /** A job occupying a max-parallel slot. */
  predicate InFlight(j: Job) {
    !j.status.Completed? && j.queuedAt.Some?
  }

  /** A job holding its concurrency group. */
  predicate Holds(j: Job) {
    !j.status.Completed? && (j.queuedAt.Some? || j.status.InProgress?)
  }

  function Find(jobs: seq<PlannedJob>, key: string, matrixKey: string): (r: Option<PlannedJob>)
    ensures r.Some? ==> r.value in jobs && r.value.key == key && r.value.matrixKey == matrixKey
    ensures r.None? ==> forall pj :: pj in jobs ==> pj.key != key || pj.matrixKey != matrixKey
  {
    if jobs == [] then None
    else if jobs[0].key == key && jobs[0].matrixKey == matrixKey then Some(jobs[0])
    else Find(jobs[1..], key, matrixKey)
  }

  /** The legs of one workflow job, in list order. */
  function LegsOf(jobs: seq<Job>, key: string): (legs: seq<Job>)
    ensures forall l :: l in legs <==> l in jobs && l.key == key
  {
    if jobs == [] then []
    else (if jobs[0].key == key then [jobs[0]] else []) + LegsOf(jobs[1..], key)
  }
}
