/** The rows the queue works on: `task_queue`, `accounts`, `account_resource_usage`,
    `task_attempts`, and the configuration read from `task_types`.

    A `Db` value is the content of the tables at one instant. Every SQL statement of the
    repositories is one function from `Db` to `Db`; see QueueTable, AccountTable, UsageLog. */
module Schema {

  datatype Option<+T> = None | Some(value: T)

  type TaskId = nat
  type AccountId = nat
  type OpId = nat
  // Seconds on the database clock.
  type Time = int

  datatype TaskStatus = Queued | Scheduled | Retry | InProgress | Done | Failed | Stuck | Cancelled

  predicate Claimable(status: TaskStatus) {
    status.Queued? || status.Scheduled? || status.Retry?
  }

  // The statuses covered by the partial unique index on dedup_key.
  predicate Active(status: TaskStatus) {
    Claimable(status) || status.InProgress?
  }

  predicate Final(status: TaskStatus) {
    status.Done? || status.Failed? || status.Stuck?
  }

  /** A value of `locked_by`: a worker process, or the one name all direct leases share. */
  datatype Locker = Worker(id: nat) | DirectLease

  // The keys of the JSON payload that the queue itself reads.
  datatype Payload = Payload(lastCompletedStep: Option<string>, watchdogRetries: nat, directLease: bool)

  datatype Task = Task(
    typeCode: string,
    status: TaskStatus,
    priority: int,
    channelId: Option<nat>,
    accountId: Option<AccountId>,
    sourceAccountId: Option<AccountId>,
    targetAccountId: Option<AccountId>,
    payload: Payload,
    dedupKey: Option<string>,
    runAfter: Time,
    lockedBy: Option<Locker>,
    lockedAt: Option<Time>,
    lockedUntil: Option<Time>,
    attemptCount: nat,
    postponeCount: nat,
    maxAttempts: int,
    lastError: Option<string>,
    startedAt: Option<Time>,
    finishedAt: Option<Time>)

  datatype AccountStatus = Usable | Cooldown | Disabled | Banned | Error

  datatype Account = Account(
    status: AccountStatus,
    isEnabled: bool,
    cooldownUntil: Option<Time>,
    currentTask: Option<TaskId>,
    lastUsedAt: Option<Time>)

  datatype Role = Primary | Source | Target

  /** A row of `task_type_ops` joined with its `resource_op_types` row. */
  datatype TypeOp = TypeOp(
    opId: OpId,
    opCode: string,
    units: nat,
    role: Role,
    rphLimit: nat,
    reservePercent: real,
    enabled: bool)

  datatype TaskType = TaskType(
    code: string,
    enabled: bool,
    defaultPriority: int,
    minAvailablePercent: int,
    usesTwoAccounts: bool,
    maxAttempts: int,
    retryDelay: int,
    retryMultiplier: real,
    maxRetryDelay: int,
    maxPostpones: int,
    timeoutSeconds: int,
    ops: seq<TypeOp>)

  datatype UsageRow = UsageRow(account: AccountId, op: OpId, task: TaskId, units: nat, at: Time)

  datatype AttemptStatus = Running | Success | Errored | TimedOut
  datatype Attempt = Attempt(task: TaskId, account: AccountId, number: nat, status: AttemptStatus)

  datatype Db = Db(
    types: map<string, TaskType>,
    thresholdOverride: Option<int>,
    tasks: map<TaskId, Task>,
    nextTask: TaskId,
    accounts: map<AccountId, Account>,
    usage: seq<UsageRow>,
    attempts: seq<Attempt>,
    now: Time)

  /** The reservation column of `accounts`. */
  function Reservations(db: Db): map<AccountId, Option<TaskId>> {
    map a | a in db.accounts :: db.accounts[a].currentTask
  }

  // Identity columns never hand out an id twice.
  ghost predicate FreshIds(db: Db) {
    forall id :: id in db.tasks ==> id < db.nextTask
  }
}
