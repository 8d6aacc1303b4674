/** The statements of the task queue, each as one atomic function on the tables. */
module QueueTable {
  import opened Schema
  import opened ErrorCodes

  /** The WHERE clause shared by every statement a task's executor issues: the row is still
      in progress and, when a lock name is given, it is still that name. */
  predicate Fenced(db: Db, id: TaskId, lock: Option<Locker>) {
    id in db.tasks && db.tasks[id].status.InProgress? && (lock.None? || db.tasks[id].lockedBy == lock)
  }

  function Unlock(t: Task): Task {
    t.(lockedBy := None, lockedAt := None, lockedUntil := None)
  }

  function PutTask(db: Db, id: TaskId, t: Task): Db {
    db.(tasks := db.tasks[id := t])
  }

  // ----- claiming -----

  predicate LeaseOver(t: Task, now: Time) {
    t.lockedUntil.None? || t.lockedUntil.value <= now
  }

  predicate Ready(db: Db, id: TaskId, codes: Option<set<string>>) {
    id in db.tasks
    && var t := db.tasks[id];
    Claimable(t.status) && t.runAfter <= db.now && LeaseOver(t, db.now)
    && (codes.None? || t.typeCode in codes.value)
  }

  // `claim_next` may hand out any ready task of the highest ready priority.
  ghost predicate ClaimChoice(db: Db, codes: Option<set<string>>, id: TaskId) {
    Ready(db, id, codes)
    && forall other: TaskId :: Ready(db, other, codes) ==> db.tasks[other].priority <= db.tasks[id].priority
  }

  function ClaimedRow(t: Task, lock: Locker, ttl: int, now: Time): Task {
    t.(status := InProgress, lockedBy := Some(lock), lockedAt := Some(now), lockedUntil := Some(now + ttl),
       startedAt := if t.startedAt.Some? then t.startedAt else Some(now))
  }

  function Claim(db: Db, id: TaskId, lock: Locker, ttl: int): Db
    requires id in db.tasks
  {
    PutTask(db, id, ClaimedRow(db.tasks[id], lock, ttl, db.now))
  }

  // ----- the executor's statements -----

  /** The statements that end a claim: complete, fail, reschedule_or_fail, postpone. */
  datatype Finisher =
    | Completing
    | Failing(error: Option<string>)
    | Rescheduling(error: Option<string>, delay: int)
    | Postponing(delay: int, error: Option<string>)

  predicate AttemptsExhausted(t: Task) {
    t.attemptCount >= t.maxAttempts
  }

  function FailedRow(t: Task, error: Option<string>, now: Time): Task {
    Unlock(t).(status := Failed, lastError := error, finishedAt := Some(now))
  }

  function FinishedRow(t: Task, how: Finisher, maxPostpones: int, now: Time): Task {
    match how
    case Completing => Unlock(t).(status := Done, finishedAt := Some(now))
    case Failing(error) => FailedRow(t, error, now)
    case Rescheduling(error, delay) =>
      if AttemptsExhausted(t) then FailedRow(t, error, now)
      else Unlock(t).(status := Retry, lastError := error, runAfter := now + delay)
    case Postponing(delay, reason) =>
      if t.postponeCount >= maxPostpones then FailedRow(t, Some(MAX_POSTPONE_COUNT), now)
      else Unlock(t).(status := Scheduled, runAfter := now + delay, postponeCount := t.postponeCount + 1,
                      lastError := if reason.Some? then reason else t.lastError)
  }

  function MaxPostpones(db: Db, t: Task): int {
    if t.typeCode in db.types then db.types[t.typeCode].maxPostpones else 0
  }

  // Postponing locks the row joined with task_types, so without its type nothing happens.
  predicate CanFinish(db: Db, id: TaskId, how: Finisher, lock: Option<Locker>) {
    Fenced(db, id, lock) && (how.Postponing? ==> db.tasks[id].typeCode in db.types)
  }

  function FinishTask(db: Db, id: TaskId, how: Finisher, lock: Option<Locker>): Db {
    if CanFinish(db, id, how, lock) then
      PutTask(db, id, FinishedRow(db.tasks[id], how, MaxPostpones(db, db.tasks[id]), db.now))
    else db
  }

  function BeginAttempt(db: Db, id: TaskId, lock: Option<Locker>): Db {
    if Fenced(db, id, lock) then
      PutTask(db, id, db.tasks[id].(attemptCount := db.tasks[id].attemptCount + 1))
    else db
  }

  function AssignAccount(db: Db, id: TaskId, account: Option<AccountId>, lock: Option<Locker>): Db {
    if Fenced(db, id, lock) then PutTask(db, id, db.tasks[id].(accountId := account)) else db
  }

  function SetLastCompletedStep(db: Db, id: TaskId, step: string, lock: Option<Locker>): Db {
    if Fenced(db, id, lock) then
      PutTask(db, id, db.tasks[id].(payload := db.tasks[id].payload.(lastCompletedStep := Some(step))))
    else db
  }

  // ----- the history of attempts -----

  function InsertAttempt(db: Db, task: TaskId, account: AccountId, number: nat): Db {
    db.(attempts := db.attempts + [Attempt(task, account, number, Running)])
  }

  // A finished attempt keeps its first result.
  function FinishAttempt(db: Db, attempt: nat, status: AttemptStatus): Db {
    if attempt < |db.attempts| && db.attempts[attempt].status.Running? then
      db.(attempts := db.attempts[attempt := db.attempts[attempt].(status := status)])
    else db
  }

  // ----- creating tasks -----

  datatype NewTask = NewTask(
    typeCode: string,
    dedupKey: Option<string>,
    channelId: Option<nat>,
    accountId: Option<AccountId>,
    sourceAccountId: Option<AccountId>,
    targetAccountId: Option<AccountId>,
    priority: Option<int>,
    runAfter: Option<Time>)

  predicate TypeEnabled(db: Db, code: string) {
    code in db.types && db.types[code].enabled
  }

  function QueuedRow(db: Db, item: NewTask): Task
    requires item.typeCode in db.types
  {
    var tt := db.types[item.typeCode];
    Task(item.typeCode, Queued,
         if item.priority.Some? then item.priority.value else tt.defaultPriority,
         item.channelId, item.accountId, item.sourceAccountId, item.targetAccountId,
         Payload(None, 0, false), item.dedupKey,
         if item.runAfter.Some? then item.runAfter.value else db.now,
         None, None, None, 0, 0, tt.maxAttempts, None, None, None)
  }

  predicate HoldsKey(db: Db, id: TaskId, key: string) {
    id in db.tasks && db.tasks[id].dedupKey == Some(key)
  }

  predicate ActiveWithKey(db: Db, id: TaskId, key: string) {
    HoldsKey(db, id, key) && Active(db.tasks[id].status)
  }

  // The unique index refuses a second active row with the same non-null key.
  ghost predicate KeyTaken(db: Db, key: Option<string>) {
    key.Some? && exists id: TaskId :: ActiveWithKey(db, id, key.value)
  }

  /** INSERT under the partial unique index. The identity value is drawn before the index
      is consulted, so a refused insert also uses one up. */
  ghost function Insert(db: Db, item: NewTask): Db
    requires item.typeCode in db.types
  {
    var drawn := db.(nextTask := db.nextTask + 1);
    if KeyTaken(db, item.dedupKey) then drawn
    else PutTask(drawn, db.nextTask, QueuedRow(db, item))
  }

  ghost predicate IsNewest(db: Db, id: TaskId, key: string) {
    HoldsKey(db, id, key) && forall other: TaskId :: HoldsKey(db, other, key) ==> other <= id
  }

  predicate FailedFatally(t: Task) {
    t.status.Failed? && IsFatal(t.lastError)
  }

  /** The newest task of the key ended failed with a code that repeating cannot cure. */
  ghost predicate FatalHistory(db: Db, id: TaskId, key: string) {
    IsNewest(db, id, key) && FailedFatally(db.tasks[id])
  }

  ghost predicate HasFatalHistory(db: Db, key: Option<string>) {
    key.Some? && key.value != "" && exists id: TaskId :: FatalHistory(db, id, key.value)
  }

  // ----- background statements over both tables -----

  predicate Orphaned(db: Db, a: AccountId)
    requires a in db.accounts
  {
    var held := db.accounts[a].currentTask;
    held.Some? && !(held.value in db.tasks && db.tasks[held.value].status.InProgress?)
  }

  function ReleaseOrphans(db: Db): Db {
    db.(accounts := map a | a in db.accounts ::
          if Orphaned(db, a) then db.accounts[a].(currentTask := None) else db.accounts[a])
  }

  /** Watchdog policy: whether to retry timed-out tasks, how often at most, and how soon. */
  datatype AutoRetry = AutoRetry(enabled: bool, cap: int, delay: int)

  function LockAnchor(t: Task): Option<Time> {
    if t.lockedAt.Some? then t.lockedAt else t.startedAt
  }

  predicate TimedOutTask(db: Db, id: TaskId) {
    id in db.tasks
    && var t := db.tasks[id];
    t.status.InProgress? && t.typeCode in db.types
    && LockAnchor(t).Some? && LockAnchor(t).value + db.types[t.typeCode].timeoutSeconds < db.now
    && LeaseOver(t, db.now)
    && !(t.payload.directLease && t.lockedUntil.Some? && t.lockedUntil.value > db.now)
  }

  predicate CanAutoRetry(t: Task, policy: AutoRetry) {
    policy.enabled && t.payload.watchdogRetries < policy.cap && t.attemptCount < t.maxAttempts
  }

  function WatchdogOutcome(t: Task, policy: AutoRetry): TaskStatus {
    if !policy.enabled then Stuck else if CanAutoRetry(t, policy) then Retry else Failed
  }

  function MarkedRow(t: Task, policy: AutoRetry, now: Time): Task {
    var u := Unlock(t).(status := WatchdogOutcome(t, policy), lastError := Some(WATCHDOG_TASK_TIMEOUT));
    match u.status
    case Retry => u.(runAfter := now + policy.delay,
                     payload := t.payload.(watchdogRetries := t.payload.watchdogRetries + 1))
    case Failed => u.(finishedAt := Some(now))
    case _ => u
  }

  // One statement: close every task of the batch and free the accounts reserved for it.
  function MarkTimedOut(db: Db, batch: set<TaskId>, policy: AutoRetry): Db {
    db.(tasks := map id | id in db.tasks ::
          if id in batch then MarkedRow(db.tasks[id], policy, db.now) else db.tasks[id],
        accounts := map a | a in db.accounts ::
          var row := db.accounts[a];
          if row.currentTask.Some? && row.currentTask.value in batch then row.(currentTask := None) else row)
  }

  // ----- what the statements mean to each other -----

  function Later(db: Db, now: Time): Db {
    db.(now := now)
  }

  predicate ReturnsAfter(db: Db, id: TaskId, how: Finisher, delay: int)
    requires id in db.tasks
  {
    (how.Rescheduling? && how.delay == delay && !AttemptsExhausted(db.tasks[id]))
    || (how.Postponing? && how.delay == delay && db.tasks[id].postponeCount < MaxPostpones(db, db.tasks[id]))
  }

  /** A task handed back with a delay can be claimed again exactly from the end of that delay;
      a task closed otherwise never. */
  lemma HandedBackReadyIff(db: Db, id: TaskId, how: Finisher, lock: Option<Locker>, later: Time)
    requires CanFinish(db, id, how, lock)
    ensures Ready(Later(FinishTask(db, id, how, lock), later), id, None)
       <==> exists delay :: ReturnsAfter(db, id, how, delay) && later >= db.now + delay
  {
    if how.Rescheduling? || how.Postponing? {
      assert ReturnsAfter(db, id, how, how.delay) || forall delay :: !ReturnsAfter(db, id, how, delay);
    }
  }

  /** A claimed task is out of reach of other claims, and the watchdog takes it exactly when
      both its type's timeout and its lease have run out. */
  lemma ClaimTimesOutIff(db: Db, id: TaskId, lock: Locker, ttl: int, later: Time)
    requires id in db.tasks && db.tasks[id].typeCode in db.types
    ensures var held := Later(Claim(db, id, lock, ttl), later);
      && !Ready(held, id, None)
      && (TimedOutTask(held, id) <==>
            later > db.now + db.types[db.tasks[id].typeCode].timeoutSeconds && later >= db.now + ttl)
  {
  }

  /** A new task can be claimed from its run_after on, at once if none was asked for. */
  lemma EnqueuedReadyIff(db: Db, item: NewTask, later: Time)
    requires item.typeCode in db.types && !KeyTaken(db, item.dedupKey)
    ensures Ready(Later(Insert(db, item), later), db.nextTask, None)
       <==> later >= if item.runAfter.Some? then item.runAfter.value else db.now
  {
  }

  /** What the watchdog retries comes back after its delay; what it closes does not. */
  lemma MarkedReadyIff(db: Db, id: TaskId, batch: set<TaskId>, policy: AutoRetry, later: Time)
    requires id in batch && id in db.tasks
    ensures Ready(Later(MarkTimedOut(db, batch, policy), later), id, None)
       <==> CanAutoRetry(db.tasks[id], policy) && later >= db.now + policy.delay
  {
  }
}
