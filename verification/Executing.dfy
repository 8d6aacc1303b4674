/** What executing a reserved task does to the tables, and how errors are turned into the
    task's next state. */
module Executing {
  import opened Schema
  import opened ErrorCodes
  import opened QueueTable
  import opened AccountTable
  import opened Effects
  import opened UsageLog
  import opened Backoff
  import opened Repositories
  import opened Reserving
  import opened ReservationRows
  import opened Pipeline

  /** What an adapter may raise. `conflict` marks an authorisation error whose text names a
      duplicated auth key. */
  datatype Raised =
    | ResourceError(code: string, reason: string)
    | PermanentError(code: string, conflict: bool)
    | RetryableError(code: string, retryAfter: Option<int>, conflict: bool)
    | OtherError(code: string, isTimeout: bool)

  /** The adapter's behaviour in one dispatch: what validation raises, what execution raises,
      and how far into the pipeline it got before it raised. */
  datatype Script = Script(validation: Option<Raised>, execution: Option<Raised>, stopped: Run)

  const UNEXPECTED: Raised := OtherError("", false)

  // The stable code of an exception; a blank code counts as none.
  function CodeOf(e: Raised): string {
    if Strip(e.code) != "" then e.code
    else if e.OtherError? && e.isTimeout then "transient_error"
    else "unexpected_error"
  }

  function AttemptOutcome(e: Raised): AttemptStatus {
    if e.OtherError? && e.isTimeout then TimedOut else Errored
  }

  predicate FreesAccountOnRetry(tt: TaskType, e: Raised) {
    && e.RetryableError? && (e.code == "channels_too_much" || e.code == "account_unauthorized")
    && IsAutoPickType(tt.code) && !tt.usesTwoAccounts
  }

  /** The account's health after an error: a flood wait cools it, a ban or a dead session
      takes it out of service and drops its reservation. */
  function SyncHealth(db: Db, account: AccountId, e: Raised): Db {
    if e.RetryableError? && e.code == "flood_wait" then
      if e.retryAfter.Some? && e.retryAfter.value > 0 then SetCooldown(db, account, db.now + e.retryAfter.value) else db
    else if e.PermanentError? && e.code == "banned" then SetBanned(db, account)
    else if (e.PermanentError? || e.RetryableError?) && e.code == "account_unauthorized" then
      if e.conflict then SetBanned(db, account) else SetAccountError(db, account)
    else db
  }

  function FinisherFor(e: Raised, tt: TaskType, number: Option<nat>, postponeDelay: int, retryDelay: int): Finisher {
    match e
    case ResourceError(_, reason) => Postponing(postponeDelay, Some(reason))
    case PermanentError(_, _) => Failing(Some(CodeOf(e)))
    case RetryableError(_, retryAfter, _) =>
      Rescheduling(Some(CodeOf(e)),
                   if retryAfter.Some? then retryAfter.value else RetryDelay(Some(tt), number, retryDelay))
    case OtherError(_, _) => Rescheduling(Some(CodeOf(e)), RetryDelay(Some(tt), number, retryDelay))
  }

  function StepsLeft(tt: TaskType, last: Option<string>): seq<TypeOp> {
    Remaining(PipelineOf(tt), last)
  }

  /** The tables once the attempt is counted and recorded: an auto-picked account is noted on
      the row. */
  function Begun(db: Db, task: ClaimedTask, tt: TaskType, exec: AccountId): Db
    requires Fenced(db, task.id, Some(task.lock))
  {
    var row := db.tasks[task.id];
    var counted := row.(attemptCount := row.attemptCount + 1,
                        accountId := if task.accountId.None? && !tt.usesTwoAccounts then Some(exec) else row.accountId);
    InsertAttempt(PutTask(db, task.id, counted), task.id, exec, counted.attemptCount)
  }

  // An execution that raises nothing goes through all steps.
  function RunOf(steps: seq<TypeOp>, script: Script): Run {
    if script.execution.None? then Run(|steps|, false) else script.stopped
  }

  /** What follows the counted attempt: nothing is charged if validation fails; a single-call
      task is charged whole before its call; a multi-operation task step by step. */
  ghost predicate Executed(begun: Db, after: Db, task: ClaimedTask, tt: TaskType, exec: AccountId,
                           byRole: map<Role, AccountId>, script: Script, raised: Option<Raised>)
  {
    var steps := StepsLeft(tt, task.lastStep);
    if script.validation.Some? then raised == script.validation && after == begun
    else if IsMultiOp(tt.code) then
      && raised == script.execution
      && after == AfterRun(begun, steps, RunOf(steps, script), exec, task.id, Some(task.lock))
    else
      && raised == (if RolesCovered(tt.ops, byRole) then script.execution else Some(UNEXPECTED))
      && after == ChargeAll(begun, tt.ops, byRole, task.id)
  }

  lemma {:induction false} ChargingOnlyAddsUsage(db: Db, ops: seq<TypeOp>, byRole: map<Role, AccountId>, task: TaskId)
    ensures var after := ChargeAll(db, ops, byRole, task);
      after == db.(usage := after.usage) && db.usage <= after.usage
    decreases |ops|
  {
    if ops != [] && ops[0].enabled && ops[0].role in byRole {
      ChargingOnlyAddsUsage(Charge(db, byRole[ops[0].role], ops[0], task), ops[1..], byRole, task);
    } else if ops != [] && !ops[0].enabled {
      ChargingOnlyAddsUsage(db, ops[1..], byRole, task);
    }
  }

  // ----- closing -----

  // The tables after a success is recorded and the task completed, if it is still claimed.
  function CompletedTables(db: Db, task: ClaimedTask, attempt: nat): Db {
    FinishTask(FinishAttempt(db, attempt, Success), task.id, Completing, Some(task.lock))
  }

  datatype DispatchResult = Completed | Postponed | Retried | FailedForGood

  // A retry that frees the account takes its name off the row.
  function Unassigned(db: Db, task: ClaimedTask, frees: bool): Db {
    if frees then AssignAccount(db, task.id, None, Some(task.lock)) else db
  }

  function Noted(db: Db, attempt: Option<nat>, status: AttemptStatus): Db {
    if attempt.Some? then FinishAttempt(db, attempt.value, status) else db
  }

  /** Health, attempt record and final statement after an error. */
  ghost predicate Handled(x: Db, y: Db, task: ClaimedTask, frees: bool, how: Finisher, exec: AccountId,
                          attempt: Option<nat>, e: Raised, result: DispatchResult) {
    var loose := Unassigned(x, task, frees);
    && y == x.(tasks := y.tasks, accounts := y.accounts, attempts := y.attempts)
    && y.accounts == SyncHealth(x, exec, e).accounts
    && y.tasks == FinishTask(loose, task.id, how, Some(task.lock)).tasks
    && y.attempts == Noted(x, attempt, AttemptOutcome(e)).attempts
    && result
       == ResultOf(e, if CanFinish(loose, task.id, how, Some(task.lock)) then Some(y.tasks[task.id].status) else None)
  }

  function ResultOf(e: Raised, status: Option<TaskStatus>): DispatchResult {
    if e.ResourceError? then Postponed
    else if e.PermanentError? || status == Some(Failed) then FailedForGood
    else Retried
  }

  predicate Suits(how: Finisher, e: Raised) {
    match e
    case ResourceError(_, _) => how.Postponing?
    case PermanentError(_, _) => how.Failing?
    case _ => how.Rescheduling?
  }

  function ReleaseEach(db: Db, ids: seq<AccountId>, task: TaskId): Db
    decreases |ids|
  {
    if ids == [] then db else ReleaseEach(Release(db, ids[0], task), ids[1..], task)
  }

  lemma {:induction false} ReleaseEachFrees(db: Db, ids: seq<AccountId>, task: TaskId)
    ensures var z := ReleaseEach(db, ids, task);
      && z == db.(accounts := z.accounts) && z.accounts.Keys == db.accounts.Keys
      && forall a :: a in db.accounts ==>
           var was := db.accounts[a].currentTask;
           z.accounts[a]
           == db.accounts[a].(currentTask := if a in ids && was == Some(task) then None else was)
    decreases |ids|
  {
    if ids != [] {
      ReleaseEachFrees(Release(db, ids[0], task), ids[1..], task);
      assert forall a :: a in ids <==> a == ids[0] || a in ids[1..];
    }
  }

  // ----- what a counted attempt comes to, read off the tables -----

  /** Where a pipeline resumes: behind the recorded step, or at the start if that is none of
      its steps. */
  ghost predicate ResumesAt(steps: seq<TypeOp>, last: Option<string>, from: nat) {
    && from <= |steps|
    && if last.Some? && last.value != "" && HasStep(steps, last.value) then
         && from > 0 && steps[from - 1].opCode == last.value
         && forall j :: 0 <= j < from - 1 ==> steps[j].opCode != last.value
       else from == 0
  }

  lemma RemainingResumes(steps: seq<TypeOp>, last: Option<string>) returns (from: nat)
    ensures ResumesAt(steps, last, from) && Remaining(steps, last) == steps[from..]
  {
    from := 0;
    if last.Some? && last.value != "" {
      var p := PositionOf(steps, last.value);
      if p.Some? {
        from := p.value + 1;
        assert steps[p.value] in steps;
      }
    }
  }

  // One row for each of these steps, in order.
  predicate StepRows(rows: seq<UsageRow>, steps: seq<TypeOp>, exec: AccountId, id: TaskId, now: Time) {
    |rows| == |steps|
    && forall k :: 0 <= k < |rows| ==> rows[k] == UsageRow(exec, steps[k].opId, id, steps[k].units, now)
  }

  /** From step `from` on, one row for each step up to the one the run stopped at, that one
      included if it was charged; and the row of the task names the last step before it. */
  ghost predicate StepsRan(x: Db, y: Db, id: TaskId, steps: seq<TypeOp>, from: nat, exec: AccountId, script: Script)
    requires from <= |steps| && id in x.tasks && id in y.tasks
  {
    var left := |steps| - from;
    var through := script.execution.None? || script.stopped.failAt >= left;
    var done := if through then left else script.stopped.failAt;
    var paid := if !through && script.stopped.charged then done + 1 else done;
    && x.usage <= y.usage && StepRows(y.usage[|x.usage|..], steps[from..from + paid], exec, id, x.now)
    && y.tasks[id].payload.lastCompletedStep
       == if done == 0 then x.tasks[id].payload.lastCompletedStep else Some(steps[from + done - 1].opCode)
  }

  lemma RunLeavesRows(begun: Db, rest: seq<TypeOp>, run: Run, exec: AccountId, id: TaskId, lock: Option<Locker>)
    ensures var executed, paid := AfterRun(begun, rest, run, exec, id, lock), ChargedBy(|rest|, run);
      begun.usage <= executed.usage && StepRows(executed.usage[|begun.usage|..], rest[..paid], exec, id, begun.now)
  {
    var paid := ChargedBy(|rest|, run);
    var rows := PaidRows(rest, paid, exec, id, begun.now);
    assert (begun.usage + rows)[|begun.usage|..] == rows;
  }

  lemma RunLeavesStep(begun: Db, rest: seq<TypeOp>, run: Run, exec: AccountId, id: TaskId, lock: Option<Locker>)
    requires Fenced(begun, id, lock)
    ensures var executed, done := AfterRun(begun, rest, run, exec, id, lock), CommittedBy(|rest|, run);
      id in executed.tasks && executed.tasks[id].payload.lastCompletedStep
        == if done == 0 then begun.tasks[id].payload.lastCompletedStep else Some(rest[done - 1].opCode)
  {
  }

  lemma StepRowsAreOne(rows: seq<UsageRow>, others: seq<UsageRow>, steps: seq<TypeOp>, exec: AccountId, id: TaskId,
                       now: Time)
    requires StepRows(rows, steps, exec, id, now) && StepRows(others, steps, exec, id, now)
    ensures rows == others
  {
  }

  ghost predicate StepsPaid(x: Db, y: Db, id: TaskId, steps: seq<TypeOp>, last: Option<string>, exec: AccountId,
                            script: Script)
    requires id in x.tasks && id in y.tasks
  {
    exists from: nat :: ResumesAt(steps, last, from) && StepsRan(x, y, id, steps, from, exec, script)
  }

  ghost predicate RowsPaid(x: Db, y: Db, id: TaskId, ops: seq<TypeOp>, byRole: map<Role, AccountId>) {
    exists rows :: PaysFor(ops, byRole, id, x.now, rows) && y.usage == x.usage + rows
  }

  /** The charges of an attempt: none if validation fails; of a task with a pipeline, the steps
      it ran, from behind its recorded step; of any other task, every enabled operation. */
  ghost predicate AttemptPays(x: Db, y: Db, id: TaskId, tt: TaskType, last: Option<string>, exec: AccountId,
                          byRole: map<Role, AccountId>, script: Script)
    requires id in x.tasks && id in y.tasks
  {
    if script.validation.Some? then y.usage == x.usage && StepStays(x, y, id)
    else if IsMultiOp(tt.code) then StepsPaid(x, y, id, PipelineOf(tt), last, exec, script)
    else RowsPaid(x, y, id, tt.ops, byRole) && StepStays(x, y, id)
  }

  predicate StepStays(x: Db, y: Db, id: TaskId)
    requires id in x.tasks && id in y.tasks
  {
    y.tasks[id].payload.lastCompletedStep == x.tasks[id].payload.lastCompletedStep
  }

  // The error an attempt ends with, if any.
  function RaisedIn(tt: TaskType, byRole: map<Role, AccountId>, script: Script): Option<Raised> {
    if script.validation.Some? then script.validation
    else if !IsMultiOp(tt.code) && !RolesCovered(tt.ops, byRole) then Some(UNEXPECTED)
    else script.execution
  }

  predicate HasCode(e: Raised, text: Option<string>) {
    if Strip(e.code) != "" then text == Some(e.code)
    else if e.OtherError? && e.isTimeout then text == Some("transient_error")
    else text == Some("unexpected_error")
  }

  /** The wait before a failed attempt is repeated: the adapter's own if it gave one, else the
      type's delay for the number of the attempt. */
  function RetryWait(e: Raised, tt: TaskType, number: nat, retryDelay: int): int {
    if e.RetryableError? && e.retryAfter.Some? then e.retryAfter.value
    else RetryDelay(Some(tt), Some(number), retryDelay)
  }

  /** The closed row after attempt `number`, by the error that ended it. */
  ghost predicate ClosedBy(r: Task, t: Task, now: Time, tt: TaskType, maxPostpones: int, number: nat,
                           raised: Option<Raised>, postponeDelay: int, retryDelay: int) {
    && OnlyClosed(r, t, now, number)
    && match raised
       case None => t.status.Done?
       case Some(ResourceError(_, reason)) => PostponedRow(r, t, now, maxPostpones, postponeDelay, Some(reason))
       case Some(PermanentError(_, _)) => t.status.Failed? && HasCode(raised.value, t.lastError)
       case Some(e) =>
         HasCode(e, t.lastError) && HandedBackRow(r, t, now, number, RetryWait(e, tt, number, retryDelay))
  }

  // An account that is full or not let in, of a task that picks its account itself.
  predicate AsksForAnother(tt: TaskType, e: Raised) {
    && e.RetryableError? && (e.code == "channels_too_much" || e.code == "account_unauthorized")
    && (SeeksAnother(tt) || (tt.code == "parser_add_channel" && !tt.usesTwoAccounts))
  }

  lemma AsksForAnotherIff(tt: TaskType, e: Raised)
    ensures AsksForAnother(tt, e) <==> FreesAccountOnRetry(tt, e)
  {
    SeeksAnotherIff(tt);
  }

  /** Whose account the row names: none after an error that asks for another account, else the
      one it had, or the one picked for it. */
  ghost predicate NamesAccount(r: Task, t: Task, given: Option<AccountId>, tt: TaskType, exec: AccountId,
                               raised: Option<Raised>) {
    if raised.Some? && AsksForAnother(tt, raised.value) then t.accountId.None?
    else t.accountId == if given.None? && !tt.usesTwoAccounts then Some(exec) else r.accountId
  }

  // ----- the health of the account -----

  predicate IsFloodWait(e: Raised) {
    e.RetryableError? && e.code == "flood_wait" && e.retryAfter.Some? && e.retryAfter.value > 0
  }

  predicate IsDeadSession(e: Raised) {
    (e.PermanentError? || e.RetryableError?) && e.code == "account_unauthorized"
  }

  predicate IsBan(e: Raised) {
    (e.PermanentError? && e.code == "banned") || (IsDeadSession(e) && e.conflict)
  }

  /** What an error does to the row of the account it was met on: a flood wait cools it for at
      least as long, and not shorter than before; a ban, or a session somebody else has taken
      over, bans it; any other dead session marks it broken unless it is banned; every other
      error leaves it in the health it had. */
  ghost predicate HealthAfter(r: Account, t: Account, now: Time, raised: Option<Raised>) {
    if raised.Some? && IsFloodWait(raised.value) then
      var until := now + raised.value.retryAfter.value;
      && (t.status.Cooldown? || (t.status.Banned? && r.status.Banned?)) && t.isEnabled == r.isEnabled
      && t.cooldownUntil
         == if r.cooldownUntil.Some? && r.cooldownUntil.value >= until then r.cooldownUntil else Some(until)
    else if raised.Some? && IsBan(raised.value) then
      t.status.Banned? && !t.isEnabled && t.cooldownUntil.None?
    else if raised.Some? && IsDeadSession(raised.value) then
      (t.status.Error? && !t.isEnabled) || (t.status.Banned? && r.status.Banned?)
    else SameHealth(r, t)
  }

  ghost predicate HealthNoted(x: Db, y: Db, exec: AccountId, raised: Option<Raised>) {
    && y.accounts.Keys == x.accounts.Keys
    && (exec in x.accounts ==> HealthAfter(x.accounts[exec], y.accounts[exec], x.now, raised))
    && forall a :: a in x.accounts && a != exec ==> SameHealth(x.accounts[a], y.accounts[a])
  }

  lemma HealthIsNoted(db: Db, exec: AccountId, e: Raised)
    ensures HealthNoted(db, SyncHealth(db, exec, e), exec, Some(e))
  {
  }

  // The record of the attempt: a timeout is told from other errors.
  predicate Recorded(status: AttemptStatus, raised: Option<Raised>) {
    match raised
    case None => status.Success?
    case Some(OtherError(_, true)) => status.TimedOut?
    case Some(_) => status.Errored?
  }

  // ----- what an error leaves behind -----

  /** After a flood wait the account is out of every reservation, and the task out of every
      claim, until the wait is over; and the account's wait is no shorter than the task's. */
  lemma FloodWaitHoldsBoth(db: Db, task: ClaimedTask, tt: TaskType, exec: AccountId, wait: int, number: Option<nat>,
                           postponeDelay: int, retryDelay: int, later: Time)
    requires exec in db.accounts && wait > 0 && later < db.now + wait
    requires Fenced(db, task.id, Some(task.lock))
    ensures var e := RetryableError("flood_wait", Some(wait), false);
      var how := FinisherFor(e, tt, number, postponeDelay, retryDelay);
      var after := FinishTask(SyncHealth(db, exec, e), task.id, how, Some(task.lock)).(now := later);
      && !Pickable(after, exec) && !CanReserve(after, exec) && !Ready(after, task.id, None)
  {
  }

  /** An error that takes the account out of service leaves it unpicked, whatever the time. */
  lemma DeadSessionIsNotPicked(db: Db, exec: AccountId, e: Raised, later: Time)
    requires exec in db.accounts
    requires
      || (e.PermanentError? && e.code == "banned")
      || ((e.PermanentError? || e.RetryableError?) && e.code == "account_unauthorized")
    ensures !Pickable(SyncHealth(db, exec, e).(now := later), exec)
    ensures SyncHealth(db, exec, e).accounts[exec].currentTask.None? || db.accounts[exec].status.Banned?
  {
    assert "flood_wait"[0] == 'f' && "account_unauthorized"[0] == 'a';
  }
}
