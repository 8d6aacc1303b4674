/** What the statements ask of the rows and write into them, column by column: a second account
    of the tables beside the statement functions, and the lemmas that tie the two together. */
module Effects {
  import opened Schema
  import opened ErrorCodes
  import opened QueueTable
  import opened AccountTable

  // ----- claiming -----

  // Queued, scheduled or up for retry; due; under no running lease; of a type asked for.
  predicate MayBeClaimed(t: Task, now: Time, codes: Option<set<string>>) {
    && (t.status.Queued? || t.status.Scheduled? || t.status.Retry?)
    && t.runAfter <= now && (t.lockedUntil.Some? ==> t.lockedUntil.value <= now)
    && (codes.Some? ==> t.typeCode in codes.value)
  }

  // The tables with this row claimed.
  function WithClaimed(x: Db, id: TaskId, lock: Locker, ttl: int): Db
    requires id in x.tasks
  {
    var r := x.tasks[id];
    x.(tasks := x.tasks[id := r.(status := InProgress, lockedBy := Some(lock), lockedAt := Some(x.now),
                                 lockedUntil := Some(x.now + ttl),
                                 startedAt := if r.startedAt.None? then Some(x.now) else r.startedAt)])
  }

  // One of the claimable rows of the highest priority among them.
  ghost predicate BestClaimable(x: Db, id: TaskId, codes: Option<set<string>>) {
    && id in x.tasks && MayBeClaimed(x.tasks[id], x.now, codes)
    && forall other :: other in x.tasks && MayBeClaimed(x.tasks[other], x.now, codes) ==>
         x.tasks[other].priority <= x.tasks[id].priority
  }

  lemma ReadyIff(db: Db, id: TaskId, codes: Option<set<string>>)
    ensures Ready(db, id, codes) <==> id in db.tasks && MayBeClaimed(db.tasks[id], db.now, codes)
  {
  }

  lemma ClaimIsWithClaimed(x: Db, id: TaskId, lock: Locker, ttl: int)
    requires id in x.tasks
    ensures Claim(x, id, lock, ttl) == WithClaimed(x, id, lock, ttl)
  {
  }

  lemma ClaimTakesBest(db: Db, id: TaskId, codes: Option<set<string>>)
    requires ClaimChoice(db, codes, id)
    ensures BestClaimable(db, id, codes)
  {
    forall other | other in db.tasks && MayBeClaimed(db.tasks[other], db.now, codes)
      ensures db.tasks[other].priority <= db.tasks[id].priority
    {
      assert Ready(db, other, codes);
    }
  }

  // ----- closing a claim -----

  /** What closing a claim may write, and what it clears: the lock always goes, the end is dated
      on a final row only, and `run_after` moves on a row that comes back only. */
  ghost predicate OnlyClosed(r: Task, t: Task, now: Time, number: nat) {
    && t == r.(status := t.status, lastError := t.lastError, runAfter := t.runAfter, finishedAt := t.finishedAt,
               postponeCount := t.postponeCount, accountId := t.accountId,
               payload := r.payload.(lastCompletedStep := t.payload.lastCompletedStep),
               attemptCount := number, lockedBy := None, lockedAt := None, lockedUntil := None)
    && t.finishedAt == (if t.status.Done? || t.status.Failed? then Some(now) else r.finishedAt)
    && (t.status.Done? || t.status.Failed? ==> t.runAfter == r.runAfter)
    && (!t.status.Scheduled? ==> t.postponeCount == r.postponeCount)
  }

  /** A postponed row: scheduled for later with its reason, or failed when it has been
      postponed as often as its type allows. */
  ghost predicate PostponedRow(r: Task, t: Task, now: Time, maxPostpones: int, delay: int, reason: Option<string>) {
    if r.postponeCount >= maxPostpones then t.status.Failed? && t.lastError == Some("max_postpone_count")
    else t.status.Scheduled? && t.runAfter == now + delay && t.postponeCount == r.postponeCount + 1
         && t.lastError == if reason.Some? then reason else r.lastError
  }

  // A row handed back after an attempt: up for retry, or failed when the attempts are used up.
  ghost predicate HandedBackRow(r: Task, t: Task, now: Time, number: nat, delay: int) {
    if number >= r.maxAttempts then t.status.Failed? else t.status.Retry? && t.runAfter == now + delay
  }

  ghost predicate FinishedAs(r: Task, t: Task, now: Time, maxPostpones: int, how: Finisher) {
    match how
    case Completing => t.status.Done? && t.lastError == r.lastError
    case Failing(error) => t.status.Failed? && t.lastError == error
    case Rescheduling(error, delay) => HandedBackRow(r, t, now, r.attemptCount, delay) && t.lastError == error
    case Postponing(delay, reason) => PostponedRow(r, t, now, maxPostpones, delay, reason)
  }

  // How often a task may be postponed; a type that is not known allows it never.
  function AllowedPostpones(db: Db, t: Task): int {
    if t.typeCode in db.types then db.types[t.typeCode].maxPostpones else 0
  }

  /** The four final statements, by kind. */
  lemma FinishWrites(db: Db, id: TaskId, how: Finisher, lock: Option<Locker>)
    requires CanFinish(db, id, how, lock)
    ensures var y := FinishTask(db, id, how, lock);
      && id in y.tasks && y == db.(tasks := db.tasks[id := y.tasks[id]])
      && var r, t := db.tasks[id], y.tasks[id];
      && OnlyClosed(r, t, db.now, r.attemptCount) && t.accountId == r.accountId && t.payload == r.payload
      && FinishedAs(r, t, db.now, AllowedPostpones(db, r), how)
  {
  }

  // ----- the watchdog -----

  /** A lease that ran out: locked, or if that is not known started, longer ago than its type
      allows, and nobody has extended the lock. A direct lease needs no clause of its own. */
  predicate RunOut(db: Db, id: TaskId) {
    && id in db.tasks && db.tasks[id].status.InProgress? && db.tasks[id].typeCode in db.types
    && var t := db.tasks[id];
    && (t.lockedUntil.Some? ==> t.lockedUntil.value <= db.now)
    && var seconds := db.types[t.typeCode].timeoutSeconds;
    if t.lockedAt.Some? then db.now - t.lockedAt.value > seconds
    else t.startedAt.Some? && db.now - t.startedAt.value > seconds
  }

  lemma TimesOutIff(db: Db, id: TaskId)
    ensures TimedOutTask(db, id) <==> RunOut(db, id)
  {
  }

  /** A row the watchdog closed: up for another try while both counters allow, else failed; or
      left stuck where nothing is retried. The error is the same in all cases. */
  ghost predicate ClosedByWatchdog(r: Task, t: Task, now: Time, policy: AutoRetry) {
    && t == r.(status := t.status, lastError := Some("watchdog:task_timeout_exceeded"), runAfter := t.runAfter,
               finishedAt := t.finishedAt, payload := t.payload,
               lockedBy := None, lockedAt := None, lockedUntil := None)
    && if !policy.enabled then
         t.status.Stuck? && t.runAfter == r.runAfter && t.finishedAt == r.finishedAt && t.payload == r.payload
       else if r.payload.watchdogRetries < policy.cap && r.attemptCount < r.maxAttempts then
         && t.status.Retry? && t.runAfter == now + policy.delay && t.finishedAt == r.finishedAt
         && t.payload == r.payload.(watchdogRetries := r.payload.watchdogRetries + 1)
       else
         t.status.Failed? && t.runAfter == r.runAfter && t.finishedAt == Some(now) && t.payload == r.payload
  }

  // Since when the lease has run.
  function Since(t: Task): Time {
    if t.lockedAt.Some? then t.lockedAt.value else if t.startedAt.Some? then t.startedAt.value else 0
  }

  // As many as the limit allows, none left behind that has run for longer than one taken.
  ghost predicate LongestRunOut(x: Db, batch: set<TaskId>, limit: nat) {
    var all := set id | id in x.tasks && RunOut(x, id);
    && batch <= all && |batch| == (if |all| < limit then |all| else limit)
    && forall a, b :: a in batch && b in all - batch ==> Since(x.tasks[a]) <= Since(x.tasks[b])
  }

  // A reservation stays exactly if its task stays in progress.
  ghost predicate LiveOnesStay(x: Db, y: Db) {
    y.accounts.Keys == x.accounts.Keys && forall a :: a in x.accounts ==>
      var was := x.accounts[a].currentTask;
      var live := was.Some? && was.value in y.tasks && y.tasks[was.value].status.InProgress?;
      y.accounts[a] == x.accounts[a].(currentTask := if live then was else None)
  }

  ghost predicate OnlyBatchClosed(x: Db, y: Db, batch: set<TaskId>, policy: AutoRetry) {
    y.tasks.Keys == x.tasks.Keys && forall id :: id in x.tasks ==>
      if id in batch then ClosedByWatchdog(x.tasks[id], y.tasks[id], x.now, policy) else y.tasks[id] == x.tasks[id]
  }

  /** One watchdog pass: the leases that ran out longest ago are closed, and reservations are live. */
  ghost predicate PassShows(x: Db, y: Db, batch: set<TaskId>, limit: nat, policy: AutoRetry) {
    && LongestRunOut(x, batch, limit)
    && y == x.(tasks := y.tasks, accounts := y.accounts)
    && OnlyBatchClosed(x, y, batch, policy) && LiveOnesStay(x, y)
  }

  lemma WatchdogText()
    ensures WATCHDOG_TASK_TIMEOUT == "watchdog:task_timeout_exceeded"
  {
    assert WATCHDOG + ":" + "task_timeout_exceeded" == "watchdog:task_timeout_exceeded";
  }

  lemma WatchdogWrites(db: Db, batch: set<TaskId>, policy: AutoRetry, id: TaskId)
    requires id in batch && id in db.tasks
    ensures ClosedByWatchdog(db.tasks[id], MarkTimedOut(db, batch, policy).tasks[id], db.now, policy)
  {
    WatchdogText();
  }

  /** A task the queue itself gives up, timed out or postponed too often, has not failed
      fatally: its key stays open to new tasks. */
  lemma GivenUpIsNotFatal(t: Task)
    requires t.lastError == Some("watchdog:task_timeout_exceeded") || t.lastError == Some("max_postpone_count")
    ensures !FailedFatally(t)
  {
    WatchdogText();
    GivingUpIsNotFatal();
  }

  // ----- a new task -----

  /** A row just queued: what was asked for, the type's defaults where nothing was, and nothing
      done yet. */
  ghost predicate NewRow(t: Task, item: NewTask, tt: TaskType, now: Time) {
    && t.typeCode == item.typeCode && t.status.Queued? && t.dedupKey == item.dedupKey
    && t.priority == (match item.priority case None => tt.defaultPriority case Some(p) => p)
    && t.runAfter == (match item.runAfter case None => now case Some(at) => at)
    && t.channelId == item.channelId && t.accountId == item.accountId
    && t.sourceAccountId == item.sourceAccountId && t.targetAccountId == item.targetAccountId
    && t.maxAttempts == tt.maxAttempts && t.attemptCount == 0 && t.postponeCount == 0
    && t.lockedBy.None? && t.lockedAt.None? && t.lockedUntil.None? && t.lastError.None?
    && t.startedAt.None? && t.finishedAt.None? && t.payload == Payload(None, 0, false)
  }

  lemma QueuedRowIsNew(db: Db, item: NewTask)
    requires item.typeCode in db.types
    ensures NewRow(QueuedRow(db, item), item, db.types[item.typeCode], db.now)
  {
  }

  // ----- accounts -----

  predicate Rested(row: Account, now: Time) {
    row.cooldownUntil.Some? ==> row.cooldownUntil.value <= now
  }

  predicate InService(row: Account) {
    row.isEnabled && (row.status.Usable? || row.status.Cooldown?)
  }

  // Free, in service and rested.
  predicate MayBePicked(row: Account, now: Time) {
    row.currentTask.None? && InService(row) && Rested(row, now)
  }

  lemma PickableIff(db: Db, a: AccountId)
    ensures Pickable(db, a) <==> a in db.accounts && MayBePicked(db.accounts[a], db.now)
  {
  }

  // Free and rested: a plain reservation asks no more.
  predicate MayBeReserved(row: Account, now: Time) {
    row.currentTask.None? && Rested(row, now)
  }

  lemma CanReserveIff(db: Db, a: AccountId)
    ensures CanReserve(db, a) <==> a in db.accounts && MayBeReserved(db.accounts[a], db.now)
  {
  }

  /** Two accounts, both free and rested, the target in service; the source is in service too, or
      out of it for good. */
  predicate PairMayBeReserved(db: Db, source: AccountId, target: AccountId) {
    && source in db.accounts && target in db.accounts && source != target
    && var s, t := db.accounts[source], db.accounts[target];
    && MayBeReserved(s, db.now) && MayBePicked(t, db.now)
    && (InService(s) || s.status.Banned? || s.status.Disabled? || s.status.Error?)
  }

  lemma CanReservePairIff(db: Db, source: AccountId, target: AccountId)
    ensures CanReservePair(db, source, target) <==> PairMayBeReserved(db, source, target)
  {
  }

  /** Never used comes first, then the longest unused; ties go to the smaller id. */
  predicate NextInLine(x: Account, a: AccountId, y: Account, b: AccountId) {
    match (x.lastUsedAt, y.lastUsedAt)
    case (None, None) => a <= b
    case (None, Some(_)) => true
    case (Some(_), None) => false
    case (Some(s), Some(t)) => s < t || (s == t && a <= b)
  }

  lemma UsedBeforeIff(db: Db, a: AccountId, b: AccountId)
    requires a in db.accounts && b in db.accounts
    ensures UsedBefore(db, a, b) <==> NextInLine(db.accounts[a], a, db.accounts[b], b)
  {
  }

  // Status, switch and cooldown as before, but that a pick makes a rested account usable.
  predicate SameHealth(r: Account, t: Account) {
    t.isEnabled == r.isEnabled && t.cooldownUntil == r.cooldownUntil && (t.status == r.status || t.status.Usable?)
  }

  function TakenBy(row: Account, task: TaskId, now: Time): Account {
    row.(currentTask := Some(task), lastUsedAt := Some(now))
  }

  /** What the three reservations write: the task and the time of use, and a pick resets the
      status. */
  lemma ReservationsWrite(db: Db, a: AccountId, b: AccountId, task: TaskId)
    ensures CanReserve(db, a) ==>
      Reserve(db, a, task) == db.(accounts := db.accounts[a := TakenBy(db.accounts[a], task, db.now)])
    ensures Pickable(db, a) ==>
      TakePicked(db, a, task)
      == db.(accounts := db.accounts[a := TakenBy(db.accounts[a], task, db.now).(status := Usable)])
    ensures CanReservePair(db, a, b) ==>
      ReservePair(db, a, b, task)
      == db.(accounts := db.accounts[a := TakenBy(db.accounts[a], task, db.now)]
                                    [b := TakenBy(db.accounts[b], task, db.now)])
  {
  }

  /** What the health statements write: a cooldown lasts to the later of the two ends; a ban and
      an error free the account and disable it, and a banned account stays banned. */
  lemma HealthWrites(db: Db, a: AccountId, until: Time)
    requires a in db.accounts
    ensures var row, cooled := db.accounts[a], SetCooldown(db, a, until).accounts[a];
      && cooled == row.(status := cooled.status, cooldownUntil := cooled.cooldownUntil)
      && (if row.status.Banned? then cooled.status.Banned? else cooled.status.Cooldown?)
      && cooled.cooldownUntil.Some? && cooled.cooldownUntil.value >= until
      && (cooled.cooldownUntil == Some(until) || cooled.cooldownUntil == row.cooldownUntil)
      && (row.cooldownUntil.Some? ==> cooled.cooldownUntil.value >= row.cooldownUntil.value)
    ensures var row, banned := db.accounts[a], SetBanned(db, a).accounts[a];
      && banned == row.(status := Banned, isEnabled := false, cooldownUntil := None, currentTask := None)
    ensures var row, broken := db.accounts[a], SetAccountError(db, a).accounts[a];
      if row.status.Banned? then broken == row
      else broken == row.(status := Error, isEnabled := false, currentTask := None)
  {
  }
}
