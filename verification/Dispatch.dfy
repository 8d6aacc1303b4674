/** One dispatch of a claimed task, from reservation to release. */
module Dispatch {
  import opened Schema
  import opened ErrorCodes
  import opened QueueTable
  import opened AccountTable
  import opened Effects
  import opened UsageLog
  import opened Pacing
  import opened Repositories
  import opened Reserving
  import opened ReservationRows
  import opened Pipeline
  import opened Executing
  import opened Simulation

  // ----- frames -----

  /** Everything but one task's row, the accounts, the usage log and the attempts. */
  ghost predicate SameAround(x: Db, y: Db, id: TaskId) {
    && y == x.(tasks := y.tasks, accounts := y.accounts, usage := y.usage, attempts := y.attempts)
    && y.tasks.Keys == x.tasks.Keys
    && forall other :: other in x.tasks && other != id ==> y.tasks[other] == x.tasks[other]
  }

  /** What the result promises about the row it leaves. */
  predicate ResultTells(t: Task, result: DispatchResult) {
    match result
    case Completed => t.status.Done?
    case Postponed => t.status.Scheduled? || (t.status.Failed? && t.lastError == Some(MAX_POSTPONE_COUNT))
    case Retried => t.status.Retry?
    case FailedForGood => t.status.Failed?
  }

  /** Exactly one attempt was added; it is closed, numbered by the row's counter, and marked
      a success exactly when the task completed. */
  ghost predicate OneAttempt(x: Db, y: Db, id: TaskId, exec: AccountId, result: DispatchResult)
    requires id in x.tasks && id in y.tasks
  {
    && |y.attempts| == |x.attempts| + 1 && y.attempts[..|x.attempts|] == x.attempts
    && var last := y.attempts[|x.attempts|];
    && last.task == id && last.account == exec
    && last.number == x.tasks[id].attemptCount + 1 == y.tasks[id].attemptCount
    && !last.status.Running? && (last.status.Success? <==> result.Completed?)
  }

  /** A reserved dispatch has run to its end, before the release. */
  ghost predicate Concluded(x: Db, y: Db, task: ClaimedTask, exec: AccountId, result: DispatchResult) {
    var id, lock := task.id, Some(task.lock);
    && SameAround(x, y, id) && !Fenced(y, id, lock)
    && (!Fenced(x, id, lock) ==>
          y.tasks == x.tasks && y.attempts == x.attempts && y.usage == x.usage && !result.Completed?)
    && (Fenced(x, id, lock) ==>
          ResultTells(y.tasks[id], result) && OneAttempt(x, y, id, exec, result) && x.usage <= y.usage)
    && OnlyDrops(x, y, exec)
  }

  // The reservation column is as it was, except that `exec` may have lost its reservation.
  ghost predicate OnlyDrops(x: Db, y: Db, exec: AccountId) {
    && y.accounts.Keys == x.accounts.Keys
    && forall a :: a in x.accounts ==>
         y.accounts[a].currentTask == x.accounts[a].currentTask || (a == exec && y.accounts[a].currentTask.None?)
  }

  /** The frame of Execute: the claim stays, the counter and the attempts stay, the log grows. */
  ghost predicate InProgressSame(x: Db, y: Db, id: TaskId, lock: Option<Locker>) {
    && SameAround(x, y, id) && y.accounts == x.accounts && y.attempts == x.attempts && x.usage <= y.usage
    && Fenced(x, id, lock) && Fenced(y, id, lock)
    && y.tasks[id] == x.tasks[id].(payload := y.tasks[id].payload)
    && OnlyStepMoved(x.tasks[id].payload, y.tasks[id].payload)
  }

  predicate OnlyStepMoved(p: Payload, q: Payload) {
    q == p.(lastCompletedStep := q.lastCompletedStep)
  }

  lemma ExecutedFrame(begun: Db, after: Db, task: ClaimedTask, tt: TaskType, exec: AccountId,
                      byRole: map<Role, AccountId>, script: Script, raised: Option<Raised>)
    requires Fenced(begun, task.id, Some(task.lock))
    requires Executed(begun, after, task, tt, exec, byRole, script, raised)
    ensures InProgressSame(begun, after, task.id, Some(task.lock))
  {
    ChargingOnlyAddsUsage(begun, tt.ops, byRole, task.id);
  }

  lemma HealthOnlyDrops(db: Db, exec: AccountId, e: Raised)
    ensures OnlyDrops(db, SyncHealth(db, exec, e), exec)
  {
  }

  /** Handling an error closes the task in the state the result names. */
  lemma HandledCloses(x: Db, y: Db, task: ClaimedTask, frees: bool, how: Finisher, exec: AccountId,
                      attempt: Option<nat>, e: Raised, result: DispatchResult)
    requires Handled(x, y, task, frees, how, exec, attempt, e, result) && Suits(how, e)
    requires Fenced(x, task.id, Some(task.lock)) ==> x.tasks[task.id].typeCode in x.types
    ensures SameAround(x, y, task.id) && !Fenced(y, task.id, Some(task.lock)) && !result.Completed?
    ensures y.usage == x.usage
    ensures OnlyDrops(x, y, exec)
    ensures !Fenced(x, task.id, Some(task.lock)) ==> y.tasks == x.tasks
    ensures Fenced(x, task.id, Some(task.lock)) ==>
      ResultTells(y.tasks[task.id], result) && y.tasks[task.id].attemptCount == x.tasks[task.id].attemptCount
  {
    HealthOnlyDrops(x, exec, e);
  }

  // Health, then the queue's statements, come to what Handled says.
  lemma ErrorIsHandled(x: Db, healthy: Db, y: Db, task: ClaimedTask, frees: bool, how: Finisher, exec: AccountId,
                       attempt: Option<nat>, e: Raised, status: Option<TaskStatus>)
    requires healthy == SyncHealth(x, exec, e)
    requires y == healthy.(tasks := FinishTask(Unassigned(healthy, task, frees), task.id, how, Some(task.lock)).tasks,
                           attempts := Noted(healthy, attempt, AttemptOutcome(e)).attempts)
    requires CanFinish(Unassigned(healthy, task, frees), task.id, how, Some(task.lock)) ==> task.id in y.tasks
    requires status == if CanFinish(Unassigned(healthy, task, frees), task.id, how, Some(task.lock))
                       then Some(y.tasks[task.id].status) else None
    ensures Handled(x, y, task, frees, how, exec, attempt, e, ResultOf(e, status))
  {
    HealthIsAccountsOnly(x, exec, e);
    UnassigningIsApart(x, healthy, task, frees);
    FinishReadsQueueOnly(Unassigned(x, task, frees), Unassigned(healthy, task, frees), task.id, how, Some(task.lock));
  }

  lemma ErrorConcludes(x: Db, begun: Db, executed: Db, y: Db, task: ClaimedTask, tt: TaskType, frees: bool,
                       how: Finisher, exec: AccountId, e: Raised, result: DispatchResult)
    requires Fenced(x, task.id, Some(task.lock)) && x.tasks[task.id].typeCode in x.types
    requires begun == Begun(x, task, tt, exec) && InProgressSame(begun, executed, task.id, Some(task.lock))
    requires Handled(executed, y, task, frees, how, exec, Some(|x.attempts|), e, result) && Suits(how, e)
    ensures Concluded(x, y, task, exec, result)
  {
    HandledCloses(executed, y, task, frees, how, exec, Some(|x.attempts|), e, result);
    assert executed.attempts[|x.attempts|].status.Running?;
  }

  lemma SuccessConcludes(x: Db, begun: Db, executed: Db, task: ClaimedTask, tt: TaskType, exec: AccountId)
    requires Fenced(x, task.id, Some(task.lock))
    requires begun == Begun(x, task, tt, exec) && InProgressSame(begun, executed, task.id, Some(task.lock))
    ensures Concluded(x, CompletedTables(executed, task, |x.attempts|), task, exec, Completed)
  {
    assert executed.attempts[|x.attempts|].status.Running?;
  }

  // ----- what the attempt comes to -----

  /** Charges, closed row, record and health of the account of an attempt under a claim in force. */
  ghost predicate AttemptShows(x: Db, y: Db, task: ClaimedTask, tt: TaskType, exec: AccountId,
                               byRole: map<Role, AccountId>, script: Script, postponeDelay: int, retryDelay: int) {
    && task.id in x.tasks && task.id in y.tasks
    && AttemptPays(x, y, task.id, tt, task.lastStep, exec, byRole, script)
    && var r, t, raised := x.tasks[task.id], y.tasks[task.id], RaisedIn(tt, byRole, script);
    && ClosedBy(r, t, x.now, tt, AllowedPostpones(x, r), r.attemptCount + 1, raised, postponeDelay, retryDelay)
    && NamesAccount(r, t, task.accountId, tt, exec, raised)
    && AttemptRecorded(x, y, task.id, exec, r.attemptCount + 1, raised)
    && HealthNoted(x, y, exec, raised)
  }

  ghost predicate AttemptRecorded(x: Db, y: Db, id: TaskId, exec: AccountId, number: nat, raised: Option<Raised>) {
    && |y.attempts| == |x.attempts| + 1 && y.attempts[..|x.attempts|] == x.attempts
    && var a := y.attempts[|x.attempts|];
    a.task == id && a.account == exec && a.number == number && Recorded(a.status, raised)
  }

  lemma ExecutedCharges(x: Db, begun: Db, executed: Db, task: ClaimedTask, tt: TaskType, exec: AccountId,
                        byRole: map<Role, AccountId>, script: Script, raised: Option<Raised>)
    requires Fenced(x, task.id, Some(task.lock)) && begun == Begun(x, task, tt, exec)
    requires Executed(begun, executed, task, tt, exec, byRole, script, raised)
    ensures task.id in executed.tasks && AttemptPays(x, executed, task.id, tt, task.lastStep, exec, byRole, script)
    ensures raised == RaisedIn(tt, byRole, script)
  {
    if script.validation.None? {
      if IsMultiOp(tt.code) {
        StepsAreCharged(x, begun, executed, task, tt, exec, script);
      } else {
        var rows := ChargeAllPays(begun, tt.ops, byRole, task.id);
        assert RowsPaid(x, executed, task.id, tt.ops, byRole);
      }
    }
  }

  lemma StepsAreCharged(x: Db, begun: Db, executed: Db, task: ClaimedTask, tt: TaskType, exec: AccountId,
                        script: Script)
    requires Fenced(x, task.id, Some(task.lock)) && begun == Begun(x, task, tt, exec)
    requires var rest := StepsLeft(tt, task.lastStep);
      executed == AfterRun(begun, rest, RunOf(rest, script), exec, task.id, Some(task.lock))
    ensures task.id in executed.tasks
    ensures StepsPaid(x, executed, task.id, PipelineOf(tt), task.lastStep, exec, script)
  {
    var steps := PipelineOf(tt);
    var from := RemainingResumes(steps, task.lastStep);
    RunFromStep(x, begun, executed, task.id, Some(task.lock), steps, from, exec, script);
  }

  lemma RunFromStep(x: Db, begun: Db, executed: Db, id: TaskId, lock: Option<Locker>, steps: seq<TypeOp>, from: nat,
                    exec: AccountId, script: Script)
    requires from <= |steps| && Fenced(begun, id, lock) && id in x.tasks && begun.usage == x.usage && begun.now == x.now
    requires begun.tasks[id].payload == x.tasks[id].payload
    requires executed == AfterRun(begun, steps[from..], RunOf(steps[from..], script), exec, id, lock)
    ensures id in executed.tasks && StepsRan(x, executed, id, steps, from, exec, script)
  {
    var rest := steps[from..];
    var run := RunOf(rest, script);
    RunLeavesRows(begun, rest, run, exec, id, lock);
    RunLeavesStep(begun, rest, run, exec, id, lock);
    assert steps[from..from + ChargedBy(|rest|, run)] == rest[..ChargedBy(|rest|, run)];
  }

  // Row by row: what the statement chosen for an error writes.
  lemma FinisherCloses(r: Task, t: Task, now: Time, tt: TaskType, maxPostpones: int, e: Raised, postponeDelay: int,
                       retryDelay: int)
    requires t == r.(attemptCount := t.attemptCount, accountId := t.accountId, payload := t.payload)
    requires OnlyStepMoved(r.payload, t.payload)
    ensures var how := FinisherFor(e, tt, Some(t.attemptCount), postponeDelay, retryDelay);
      ClosedBy(r, FinishedRow(t, how, maxPostpones, now), now, tt, maxPostpones, t.attemptCount, Some(e), postponeDelay,
               retryDelay)
  {
  }

  lemma HandledRow(x: Db, y: Db, task: ClaimedTask, frees: bool, how: Finisher, exec: AccountId, attempt: Option<nat>,
                   e: Raised, result: DispatchResult)
    requires Handled(x, y, task, frees, how, exec, attempt, e, result)
    requires Fenced(x, task.id, Some(task.lock)) && x.tasks[task.id].typeCode in x.types
    ensures task.id in y.tasks && y.usage == x.usage
    ensures y.tasks[task.id] == FinishedRow(Unassigned(x, task, frees).tasks[task.id], how,
                                            MaxPostpones(x, x.tasks[task.id]), x.now)
  {
  }

  lemma ClosingRecords(x: Db, executed: Db, y: Db, id: TaskId, exec: AccountId, number: nat, e: Option<Raised>)
    requires executed.attempts == x.attempts + [Attempt(id, exec, number, Running)]
    requires y.attempts
          == FinishAttempt(executed, |x.attempts|, if e.Some? then AttemptOutcome(e.value) else Success).attempts
    ensures AttemptRecorded(x, y, id, exec, number, e)
  {
    assert executed.attempts[|x.attempts|].status.Running?;
  }

  /** The final statement of an attempt leaves its charges, and closes row and record by the
      error. */
  lemma ErrorShows(x: Db, executed: Db, y: Db, task: ClaimedTask, tt: TaskType, exec: AccountId, e: Raised,
                   postponeDelay: int, retryDelay: int, result: DispatchResult)
    requires Fenced(x, task.id, Some(task.lock)) && x.tasks[task.id].typeCode in x.types
    requires InProgressSame(Begun(x, task, tt, exec), executed, task.id, Some(task.lock))
    requires var number := Some(x.tasks[task.id].attemptCount + 1);
      Handled(executed, y, task, FreesAccountOnRetry(tt, e), FinisherFor(e, tt, number, postponeDelay, retryDelay),
              exec, Some(|x.attempts|), e, result)
    ensures y.usage == executed.usage && task.id in y.tasks
    ensures y.tasks[task.id].payload == executed.tasks[task.id].payload
    ensures var r, t := x.tasks[task.id], y.tasks[task.id];
      && ClosedBy(r, t, x.now, tt, AllowedPostpones(x, r), r.attemptCount + 1, Some(e), postponeDelay, retryDelay)
      && NamesAccount(r, t, task.accountId, tt, exec, Some(e))
      && AttemptRecorded(x, y, task.id, exec, r.attemptCount + 1, Some(e))
    ensures HealthNoted(x, y, exec, Some(e))
  {
    HealthIsNoted(executed, exec, e);
    AsksForAnotherIff(tt, e);
    var frees, number := FreesAccountOnRetry(tt, e), x.tasks[task.id].attemptCount + 1;
    HandledRow(executed, y, task, frees, FinisherFor(e, tt, Some(number), postponeDelay, retryDelay), exec,
               Some(|x.attempts|), e, result);
    FinisherCloses(x.tasks[task.id], Unassigned(executed, task, frees).tasks[task.id], x.now, tt,
                   MaxPostpones(x, x.tasks[task.id]), e, postponeDelay, retryDelay);
    ClosingRecords(x, executed, y, task.id, exec, number, Some(e));
  }

  lemma PaymentStands(x: Db, y: Db, u: Db, z: Db, id: TaskId, tt: TaskType, last: Option<string>, exec: AccountId,
                      byRole: map<Role, AccountId>, script: Script)
    requires id in x.tasks && id in y.tasks && AttemptPays(x, y, id, tt, last, exec, byRole, script)
    requires u.tasks == x.tasks && u.usage == x.usage && u.now == x.now && z.usage == y.usage
    requires id in z.tasks && z.tasks[id].payload == y.tasks[id].payload
    ensures AttemptPays(u, z, id, tt, last, exec, byRole, script)
  {
    if script.validation.None? {
      if IsMultiOp(tt.code) {
        var from: nat :| ResumesAt(PipelineOf(tt), last, from)
                         && StepsRan(x, y, id, PipelineOf(tt), from, exec, script);
        assert StepsRan(u, z, id, PipelineOf(tt), from, exec, script);
      } else {
        assert RowsPaid(u, z, id, tt.ops, byRole);
      }
    }
  }

  // The health column as it was at the start, and the release that leaves it alone.
  ghost predicate OnlyHeld(x: Db, u: Db, y: Db, z: Db) {
    && x.accounts.Keys == u.accounts.Keys && z.accounts.Keys == y.accounts.Keys && x.now == u.now
    && (forall a :: a in u.accounts ==> SameHealth(u.accounts[a], x.accounts[a]))
    && forall a :: a in y.accounts ==> z.accounts[a] == y.accounts[a].(currentTask := z.accounts[a].currentTask)
  }

  lemma HealthStands(x: Db, y: Db, u: Db, z: Db, exec: AccountId, raised: Option<Raised>)
    requires HealthNoted(x, y, exec, raised) && OnlyHeld(x, u, y, z)
    ensures HealthNoted(u, z, exec, raised)
  {
    forall a | a in u.accounts
      ensures SameHealth(x.accounts[a], y.accounts[a]) ==> SameHealth(u.accounts[a], z.accounts[a])
    {
    }
  }

  // Reserving before the attempt and releasing after it do not change what it shows.
  lemma AttemptStands(x: Db, y: Db, u: Db, z: Db, task: ClaimedTask, tt: TaskType, exec: AccountId,
                      byRole: map<Role, AccountId>, script: Script, postponeDelay: int, retryDelay: int)
    requires AttemptShows(x, y, task, tt, exec, byRole, script, postponeDelay, retryDelay)
    requires u == x.(accounts := u.accounts) && z == y.(accounts := z.accounts) && OnlyHeld(x, u, y, z)
    ensures AttemptShows(u, z, task, tt, exec, byRole, script, postponeDelay, retryDelay)
  {
    PaymentStands(x, y, u, z, task.id, tt, task.lastStep, exec, byRole, script);
    HealthStands(x, y, u, z, exec, RaisedIn(tt, byRole, script));
  }

  lemma ErrorIsShown(x: Db, executed: Db, y: Db, task: ClaimedTask, tt: TaskType, exec: AccountId,
                     byRole: map<Role, AccountId>, script: Script, e: Raised, postponeDelay: int, retryDelay: int,
                     result: DispatchResult)
    requires Fenced(x, task.id, Some(task.lock)) && x.tasks[task.id].typeCode in x.types
    requires Executed(Begun(x, task, tt, exec), executed, task, tt, exec, byRole, script, Some(e))
    requires var number := Some(x.tasks[task.id].attemptCount + 1);
      Handled(executed, y, task, FreesAccountOnRetry(tt, e), FinisherFor(e, tt, number, postponeDelay, retryDelay),
              exec, Some(|x.attempts|), e, result)
    ensures AttemptShows(x, y, task, tt, exec, byRole, script, postponeDelay, retryDelay)
  {
    var begun := Begun(x, task, tt, exec);
    ExecutedFrame(begun, executed, task, tt, exec, byRole, script, Some(e));
    ExecutedCharges(x, begun, executed, task, tt, exec, byRole, script, Some(e));
    ErrorShows(x, executed, y, task, tt, exec, e, postponeDelay, retryDelay, result);
    PaymentStands(x, executed, x, y, task.id, tt, task.lastStep, exec, byRole, script);
  }

  lemma SuccessIsShown(x: Db, executed: Db, task: ClaimedTask, tt: TaskType, exec: AccountId,
                       byRole: map<Role, AccountId>, script: Script, postponeDelay: int, retryDelay: int)
    requires Fenced(x, task.id, Some(task.lock))
    requires Executed(Begun(x, task, tt, exec), executed, task, tt, exec, byRole, script, None)
    ensures AttemptShows(x, CompletedTables(executed, task, |x.attempts|), task, tt, exec, byRole, script,
                         postponeDelay, retryDelay)
  {
    var begun := Begun(x, task, tt, exec);
    ExecutedFrame(begun, executed, task, tt, exec, byRole, script, None);
    ExecutedCharges(x, begun, executed, task, tt, exec, byRole, script, None);
    var y := CompletedTables(executed, task, |x.attempts|);
    PaymentStands(x, executed, x, y, task.id, tt, task.lastStep, exec, byRole, script);
    ClosingRecords(x, executed, y, task.id, exec, x.tasks[task.id].attemptCount + 1, None);
  }

  // ----- reservation and release around the run -----

  /** `r` is `x` with exactly the accounts of `held` reserved for the task. */
  ghost predicate ReservedFor(x: Db, r: Db, id: TaskId, held: set<AccountId>) {
    && r == x.(accounts := r.accounts) && r.accounts.Keys == x.accounts.Keys && held <= x.accounts.Keys
    && forall a :: a in x.accounts ==>
         if a in held then x.accounts[a].currentTask.None? && r.accounts[a].currentTask == Some(id)
         else r.accounts[a].currentTask == x.accounts[a].currentTask
  }

  // Reserving does no harm to any account.
  ghost predicate Unharmed(x: Db, r: Db) {
    r.accounts.Keys == x.accounts.Keys && forall a :: a in x.accounts ==> SameHealth(x.accounts[a], r.accounts[a])
  }

  /** A dispatch gives back what it took and lets go of its task. */
  ghost predicate Balanced(x: Db, y: Db, task: ClaimedTask) {
    && SameAround(x, y, task.id)
    && Reservations(y) == Reservations(x)
    && !Fenced(y, task.id, Some(task.lock))
    && (!Fenced(x, task.id, Some(task.lock)) ==> y.tasks == x.tasks)
  }

  ghost predicate NoAttempt(x: Db, y: Db, task: ClaimedTask, result: DispatchResult) {
    && y.attempts == x.attempts && y.usage == x.usage && !result.Completed?
    && (Fenced(x, task.id, Some(task.lock)) && task.id in y.tasks ==>
          y.tasks[task.id].attemptCount == x.tasks[task.id].attemptCount)
  }

  /** The account the task runs on, if it runs: the target of a granted pair, the granted
      fixed account, or the first acceptable one. */
  ghost predicate RunsOn(db: Db, task: ClaimedTask, pace: Pace, exec: AccountId) {
    && TypeEnabled(db, task.typeCode)
    && var tt := db.types[task.typeCode];
    if tt.usesTwoAccounts then PairGranted(db, task, tt) && task.targetAccountId == Some(exec)
    else if task.accountId.Some? then FixedGranted(db, tt, pace, exec) && task.accountId == Some(exec)
    else FirstFit(db, tt, pace, exec)
  }

  lemma RunsOnOne(db: Db, task: ClaimedTask, pace: Pace, a: AccountId, b: AccountId)
    requires RunsOn(db, task, pace, a) && RunsOn(db, task, pace, b)
    ensures a == b
  {
  }

  predicate Distinct(ids: seq<AccountId>) {
    forall i, j :: 0 <= i < j < |ids| ==> ids[i] != ids[j]
  }

  lemma ReleaseBalances(x: Db, r: Db, y: Db, task: ClaimedTask, exec: AccountId, ids: seq<AccountId>,
                        result: DispatchResult)
    requires ReservedFor(x, r, task.id, set a | a in ids) && Concluded(r, y, task, exec, result) && exec in ids
    ensures Balanced(x, ReleaseEach(y, ids, task.id), task)
  {
    ReleaseEachFrees(y, ids, task.id);
    var z := ReleaseEach(y, ids, task.id);
    forall a | a in x.accounts ensures z.accounts[a].currentTask == x.accounts[a].currentTask {
      assert a in ids <==> a in set b | b in ids;
    }
    assert Reservations(z) == Reservations(x);
  }

  /** Refusing postpones a task in force and touches nothing else. */
  lemma RefusalBalances(x: Db, r: Db, task: ClaimedTask, tt: TaskType, d: Decision)
    requires d.RefusedFor? && r == x.(accounts := r.accounts) && Reservations(r) == Reservations(x)
    requires Fenced(x, task.id, Some(task.lock)) ==> x.tasks[task.id].typeCode in x.types
    ensures var y := Refuse(r, task, tt, d);
      && Balanced(x, y, task) && NoAttempt(x, y, task, Postponed)
      && (Fenced(x, task.id, Some(task.lock)) ==> ResultTells(y.tasks[task.id], Postponed))
  {
  }

  lemma PickReserves(x: Db, tried: set<AccountId>, a: AccountId, task: TaskId)
    requires tried <= PickableAccounts(x) && Pickable(x, a)
    ensures ReservedFor(x, TakePicked(Tried(x, tried), a, task), task, set b | b in [a])
    ensures Unharmed(x, TakePicked(Tried(x, tried), a, task))
  {
  }

  lemma FixedReserves(x: Db, a: AccountId, task: TaskId)
    requires CanReserve(x, a)
    ensures ReservedFor(x, Reserve(x, a, task), task, set b | b in [a])
    ensures Unharmed(x, Reserve(x, a, task))
  {
  }

  lemma PairReserves(x: Db, source: AccountId, target: AccountId, task: TaskId)
    requires CanReservePair(x, source, target)
    ensures ReservedFor(x, ReservePair(x, source, target, task), task, set b | b in [source, target])
    ensures Unharmed(x, ReservePair(x, source, target, task))
  {
    ReservationsWrite(x, source, target, task);
    assert forall b :: b in [source, target] <==> b == source || b == target;
  }

  /** All that is promised of a reserved dispatch before its release. */
  ghost predicate Outcome(x: Db, y: Db, task: ClaimedTask, tt: TaskType, exec: AccountId, byRole: map<Role, AccountId>,
                          ids: seq<AccountId>, script: Script, postponeDelay: int, retryDelay: int,
                          result: DispatchResult) {
    && Concluded(x, y, task, exec, result)
    && (Fenced(x, task.id, Some(task.lock)) ==>
          AttemptShows(x, y, task, tt, exec, byRole, script, postponeDelay, retryDelay))
    && RunsOut(x, ReleaseEach(y, ids, task.id), task, tt, exec, byRole, ids)
  }

  lemma ErrorOutcome(x: Db, executed: Db, y: Db, task: ClaimedTask, tt: TaskType, exec: AccountId,
                     byRole: map<Role, AccountId>, ids: seq<AccountId>, script: Script, e: Raised, postponeDelay: int,
                     retryDelay: int, result: DispatchResult)
    requires Fenced(x, task.id, Some(task.lock)) && x.tasks[task.id].typeCode in x.types && Distinct(ids)
    requires Executed(Begun(x, task, tt, exec), executed, task, tt, exec, byRole, script, Some(e))
    requires var number := Some(x.tasks[task.id].attemptCount + 1);
      Handled(executed, y, task, FreesAccountOnRetry(tt, e), FinisherFor(e, tt, number, postponeDelay, retryDelay),
              exec, Some(|x.attempts|), e, result)
    ensures Outcome(x, y, task, tt, exec, byRole, ids, script, postponeDelay, retryDelay, result)
  {
    var begun, frees := Begun(x, task, tt, exec), FreesAccountOnRetry(tt, e);
    var how := FinisherFor(e, tt, Some(x.tasks[task.id].attemptCount + 1), postponeDelay, retryDelay);
    ExecutedFrame(begun, executed, task, tt, exec, byRole, script, Some(e));
    ErrorConcludes(x, begun, executed, y, task, tt, frees, how, exec, e, result);
    ErrorIsShown(x, executed, y, task, tt, exec, byRole, script, e, postponeDelay, retryDelay, result);
    ErrorRun(x, executed, y, task, tt, frees, how, exec, byRole, ids, script, e, Some(|x.attempts|), result);
  }

  lemma SuccessOutcome(x: Db, executed: Db, y: Db, task: ClaimedTask, tt: TaskType, exec: AccountId,
                       byRole: map<Role, AccountId>, ids: seq<AccountId>, script: Script, postponeDelay: int,
                       retryDelay: int)
    requires Fenced(x, task.id, Some(task.lock)) && Distinct(ids) && y == CompletedTables(executed, task, |x.attempts|)
    requires Executed(Begun(x, task, tt, exec), executed, task, tt, exec, byRole, script, None)
    ensures Fenced(executed, task.id, Some(task.lock))
    ensures Outcome(x, y, task, tt, exec, byRole, ids, script, postponeDelay, retryDelay, Completed)
  {
    var begun := Begun(x, task, tt, exec);
    ExecutedFrame(begun, executed, task, tt, exec, byRole, script, None);
    SuccessConcludes(x, begun, executed, task, tt, exec);
    SuccessIsShown(x, executed, task, tt, exec, byRole, script, postponeDelay, retryDelay);
    SuccessRun(x, executed, y, task, tt, exec, byRole, ids, script, |x.attempts|);
  }

  class TaskDispatcher {
    const db: Database
    const queue: TaskQueueRepo
    const accounts: AccountsRepo
    const usage: ResourceUsageRepo
    const attempts: TaskAttemptsRepo
    const checker: ResourceChecker
    const runner: PipelineRunner
    const pacer: AccountPacer
    const postponeDelay: int
    const retryDelay: int

    constructor (db: Database, pacer: AccountPacer, postponeDelay: int, retryDelay: int)
      ensures this.db == db && this.pacer == pacer
      ensures this.postponeDelay == postponeDelay && this.retryDelay == retryDelay
      ensures Wired()
    {
      this.db, this.pacer, this.postponeDelay, this.retryDelay := db, pacer, postponeDelay, retryDelay;
      var queueRepo := new TaskQueueRepo(db);
      var usageRepo := new ResourceUsageRepo(db);
      queue, usage := queueRepo, usageRepo;
      accounts := new AccountsRepo(db);
      attempts := new TaskAttemptsRepo(db);
      checker := new ResourceChecker(db);
      runner := new PipelineRunner(queueRepo, usageRepo);
    }

    ghost predicate Wired() {
      && queue.db == db && accounts.db == db && usage.db == db && attempts.db == db && checker.db == db
      && runner.queue == queue && runner.usage == usage
    }

    function PaceAt(clock: real): Pace
      reads pacer
    {
      Pace(pacer.interval, pacer.nextAllowed, clock)
    }

    method Postpone(task: ClaimedTask, delay: int, reason: string)
      requires Wired()
      modifies db`tasks
      ensures db.Snapshot() == PostponeTask(old(db.Snapshot()), task, delay, reason)
    {
      var _ := queue.Finish(task.id, Postponing(delay, Some(reason)), Some(task.lock));
    }

    method UnassignIfRefused(task: ClaimedTask, tt: TaskType)
      requires Wired()
      modifies db`tasks
      ensures db.Snapshot() == Unassign(old(db.Snapshot()), task, tt)
    {
      if UnassignsWhenRefused(tt) {
        queue.Assign(task.id, None, Some(task.lock));
      }
    }

    /** Picks the next account not yet rejected and keeps it if budget and pacing allow. */
    method TryNext(task: ClaimedTask, tt: TaskType, clock: real, rejected: set<AccountId>) returns (trial: Trial)
      requires Wired()
      modifies db`accounts, pacer
      ensures TrialIs(old(db.Snapshot()), old(PaceAt(clock)), task.id, tt, rejected, trial)
      ensures db.Snapshot() == AfterTrial(old(db.Snapshot()), task.id, trial)
      ensures pacer.nextAllowed
           == if trial.Got? then SlotsTaken(old(PaceAt(clock)), tt, trial.account) else old(pacer.nextAllowed)
    {
      ghost var before := db.Snapshot();
      var picked := accounts.PickAndReserve(task.id, rejected);
      if picked.None? {
        return Nobody;
      }
      var a := picked.value;
      CheckReadsUsageOnly(before, db.Snapshot(), a, tt, Primary);
      var check := checker.Check(a, tt, Primary);
      if !check.CheckOk? {
        accounts.ReleaseFor(a, task.id);
        return Unfit(a, check);
      }
      if pacer.Enabled() && IsPacedType(tt.code) {
        var wait := pacer.TryAcquire(a, clock);
        if wait > 0.0 {
          accounts.ReleaseFor(a, task.id);
          return TooEarly(a, wait);
        }
      }
      return Got(a);
    }

    /** The first acceptable account in least-recently-used order, reserved; none exactly when
        there is none, and then the task is postponed. The accounts tried on the way are free
        again and their pacing slots untouched. */
    method ReserveAutoPick(task: ClaimedTask, tt: TaskType, clock: real) returns (chosen: Option<AccountId>)
      requires Wired()
      modifies db`accounts, db`tasks, pacer
      ensures var before, after, pace := old(db.Snapshot()), db.Snapshot(), old(PaceAt(clock));
        && (chosen.Some? ==>
              && FirstAcceptable(before, tt, pace, chosen.value)
              && after == TakePicked(Tried(before, AheadOf(before, chosen.value)), chosen.value, task.id)
              && pacer.nextAllowed == SlotsTaken(pace, tt, chosen.value))
        && (chosen.None? ==>
              && (forall a: AccountId :: !Acceptable(before, tt, pace, a))
              && pacer.nextAllowed == pace.slots
              && exists reason, delay ::
                   && NobodyFound(before, tt, pace, postponeDelay, reason, delay)
                   && after == PostponeTask(Tried(before, PickableAccounts(before)), task, delay, reason))
      ensures PickShows(old(db.Snapshot()), db.Snapshot(), task, tt, old(PaceAt(clock)), pacer.nextAllowed,
                        postponeDelay, chosen)
    {
      ghost var before, pace := db.Snapshot(), PaceAt(clock);
      var rejected: set<AccountId> := {};
      var lastCheck: Option<CheckResult>, lastAccount: AccountId := None, 0;
      var longestWait := 0.0;
      SearchBegins(before, tt, pace);
      while true
        invariant db.Snapshot() == Tried(before, rejected) && pacer.nextAllowed == pace.slots
        invariant Searching(before, tt, pace, rejected,
                            if lastCheck.Some? then Some(lastAccount) else None, longestWait)
        invariant lastCheck.Some? ==> lastCheck.value == CheckAccount(before, lastAccount, tt, Primary)
        decreases before.accounts.Keys - rejected
      {
        ghost var last := if lastCheck.Some? then Some(lastAccount) else None;
        var trial := TryNext(task, tt, clock, rejected);
        match trial
        case Nobody =>
          SearchEnds(before, tt, pace, rejected, last, longestWait);
          var reason := WhyNobody(lastCheck, lastAccount, longestWait, rejected != {});
          var delay := if reason == PACING then PacingDelay(longestWait, postponeDelay) else postponeDelay;
          WhyIsRight(before, tt, pace, last, longestWait, postponeDelay);
          NobodyIsShown(before, task, tt, pace, postponeDelay, reason, delay);
          Postpone(task, delay, reason);
          return None;
        case Unfit(a, check) =>
          TrialOnTried(before, tt, pace, rejected, task.id, trial);
          SearchPastBudget(before, tt, pace, rejected, last, longestWait, a);
          rejected, lastCheck, lastAccount := rejected + {a}, Some(check), a;
        case TooEarly(a, wait) =>
          TrialOnTried(before, tt, pace, rejected, task.id, trial);
          SearchPastPacing(before, tt, pace, rejected, last, longestWait, a);
          rejected, longestWait := rejected + {a}, if longestWait >= wait then longestWait else wait;
        case Got(a) =>
          TrialOnTried(before, tt, pace, rejected, task.id, trial);
          ScanFindsFirst(before, tt, pace, rejected, a);
          PickIsShown(before, task, tt, pace, a, postponeDelay);
          return Some(a);
      }
    }

    /** Reserve first, check under the reservation, then the pacing slot; any refusal gives
        the account back before the task is postponed. */
    method ReserveFixed(task: ClaimedTask, tt: TaskType, a: AccountId, clock: real) returns (ok: bool)
      requires Wired()
      modifies db`accounts, db`tasks, pacer
      ensures var before, pace := old(db.Snapshot()), old(PaceAt(clock));
        var d := FixedDecision(before, tt, pace, a, postponeDelay);
        && ok == d.Granted?
        && db.Snapshot() == (if ok then Reserve(before, a, task.id) else Refuse(Touched(before, a), task, tt, d))
        && pacer.nextAllowed == (if ok then SlotsTaken(pace, tt, a) else pace.slots)
      ensures FixedShows(old(db.Snapshot()), db.Snapshot(), task, tt, old(PaceAt(clock)), pacer.nextAllowed, a,
                         postponeDelay, ok)
    {
      ghost var before := db.Snapshot();
      FixedIsShown(before, task, tt, PaceAt(clock), a, postponeDelay);
      var reserved := accounts.ReserveOne(a, task.id);
      if !reserved {
        UnassignIfRefused(task, tt);
        Postpone(task, postponeDelay, "account_reserve_failed:" + Digits(a));
        return false;
      }
      ReserveAndGiveBack(before, a, task.id);
      CheckReadsUsageOnly(before, db.Snapshot(), a, tt, Primary);
      var check := checker.Check(a, tt, Primary);
      if !check.CheckOk? {
        accounts.ReleaseFor(a, task.id);
        Postpone(task, postponeDelay, ResourceReason(check, a));
        return false;
      }
      if pacer.Enabled() && IsPacedType(tt.code) {
        var wait := pacer.TryAcquire(a, clock);
        if wait > 0.0 {
          accounts.ReleaseFor(a, task.id);
          Postpone(task, PacingDelay(wait, postponeDelay), PACING);
          return false;
        }
      }
      return true;
    }

    /** Both budgets are checked before either account is reserved. */
    method ReserveDual(task: ClaimedTask, tt: TaskType) returns (ok: bool)
      requires Wired()
      modifies db`accounts, db`tasks
      ensures var before := old(db.Snapshot());
        ghost var d := PairDecision(before, tt, task.sourceAccountId, task.targetAccountId, postponeDelay);
        && ok == d.Granted?
        && db.Snapshot() == (if ok
                             then ReservePair(before, task.sourceAccountId.value, task.targetAccountId.value, task.id)
                             else Refuse(before, task, tt, d))
      ensures PairShows(old(db.Snapshot()), db.Snapshot(), task, tt, postponeDelay, ok)
    {
      PairIsShown(db.Snapshot(), task, tt, postponeDelay);
      if task.sourceAccountId.None? || task.targetAccountId.None? {
        Postpone(task, postponeDelay, "missing_dual_accounts");
        return false;
      }
      var source, target := task.sourceAccountId.value, task.targetAccountId.value;
      if source == target {
        Postpone(task, postponeDelay, "dual_accounts_same_id");
        return false;
      }
      var ofSource := checker.Check(source, tt, Source);
      if !ofSource.CheckOk? {
        Postpone(task, postponeDelay, ResourceReason(ofSource, source));
        return false;
      }
      var ofTarget := checker.Check(target, tt, Target);
      if !ofTarget.CheckOk? {
        Postpone(task, postponeDelay, ResourceReason(ofTarget, target));
        return false;
      }
      ok := accounts.ReserveBoth(source, target, task.id);
      if !ok {
        UnassignIfRefused(task, tt);
        Postpone(task, postponeDelay, "dual_account_reserve_failed:" + Digits(source) + ":" + Digits(target));
      }
    }

    /** Counts the attempt and records it; refused when the claim is gone. */
    method Begin(task: ClaimedTask, tt: TaskType, exec: AccountId) returns (attempt: Option<nat>, number: Option<nat>)
      requires Wired()
      modifies db`tasks, db`attempts
      ensures Fenced(old(db.Snapshot()), task.id, Some(task.lock)) ==>
        && db.Snapshot() == Begun(old(db.Snapshot()), task, tt, exec)
        && attempt == Some(old(|db.attempts|)) && number == Some(old(db.tasks)[task.id].attemptCount + 1)
      ensures !Fenced(old(db.Snapshot()), task.id, Some(task.lock)) ==>
        db.Snapshot() == old(db.Snapshot()) && attempt.None? && number.None?
    {
      if task.accountId.None? && !tt.usesTwoAccounts {
        queue.Assign(task.id, Some(exec), Some(task.lock));
      }
      number := queue.BeginExecutionAttempt(task.id, Some(task.lock));
      if number.None? {
        return None, None;
      }
      var a := attempts.Start(task.id, exec, number.value);
      return Some(a), number;
    }

    /** Validates, charges, executes. */
    method Execute(task: ClaimedTask, tt: TaskType, exec: AccountId, byRole: map<Role, AccountId>, script: Script)
      returns (raised: Option<Raised>)
      requires Wired()
      modifies db`tasks, db`usage
      ensures Executed(old(db.Snapshot()), db.Snapshot(), task, tt, exec, byRole, script, raised)
    {
      if script.validation.Some? {
        return script.validation;
      }
      if IsMultiOp(tt.code) {
        ExecuteSteps(task, StepsLeft(tt, task.lastStep), exec, script);
        return script.execution;
      }
      var ok := usage.RecordForTask(tt.ops, byRole, task.id);
      return if ok then script.execution else Some(UNEXPECTED);
    }

    method ExecuteSteps(task: ClaimedTask, steps: seq<TypeOp>, exec: AccountId, script: Script)
      requires Wired()
      modifies db`tasks, db`usage
      ensures db.Snapshot()
           == AfterRun(old(db.Snapshot()), steps, RunOf(steps, script), exec, task.id, Some(task.lock))
    {
      var _ := runner.Run(task.id, steps, exec, RunOf(steps, script), Some(task.lock));
    }

    /** Health first, then the attempt's record, then the task's next state. */
    method HandleError(task: ClaimedTask, tt: TaskType, exec: AccountId, attempt: Option<nat>, number: Option<nat>,
                       e: Raised)
      returns (result: DispatchResult)
      requires Wired()
      modifies db`tasks, db`accounts, db`attempts
      ensures Handled(old(db.Snapshot()), db.Snapshot(), task, FreesAccountOnRetry(tt, e),
                      FinisherFor(e, tt, number, postponeDelay, retryDelay), exec, attempt, e, result)
    {
      ghost var before := db.Snapshot();
      if e.PermanentError? || e.RetryableError? {
        NoteHealth(exec, e);
      }
      ghost var healthy := db.Snapshot();
      var status := CloseTask(task, FreesAccountOnRetry(tt, e), attempt, AttemptOutcome(e),
                              FinisherFor(e, tt, number, postponeDelay, retryDelay));
      result := ResultOf(e, status);
      ErrorIsHandled(before, healthy, db.Snapshot(), task, FreesAccountOnRetry(tt, e),
                     FinisherFor(e, tt, number, postponeDelay, retryDelay), exec, attempt, e, status);
    }

    method CloseTask(task: ClaimedTask, frees: bool, attempt: Option<nat>, outcome: AttemptStatus, how: Finisher)
      returns (status: Option<TaskStatus>)
      requires Wired()
      modifies db`tasks, db`attempts
      ensures var before, after := old(db.Snapshot()), db.Snapshot();
        var loose := Unassigned(before, task, frees);
        && after == before.(tasks := FinishTask(loose, task.id, how, Some(task.lock)).tasks, attempts := after.attempts)
        && after.attempts == Noted(before, attempt, outcome).attempts
        && status
           == (if CanFinish(loose, task.id, how, Some(task.lock)) then Some(after.tasks[task.id].status) else None)
    {
      if frees {
        queue.Assign(task.id, None, Some(task.lock));
      }
      attempts.Close(attempt, outcome);
      status := queue.Finish(task.id, how, Some(task.lock));
    }

    method NoteHealth(exec: AccountId, e: Raised)
      requires Wired() && (e.PermanentError? || e.RetryableError?)
      modifies db`accounts
      ensures db.Snapshot() == SyncHealth(old(db.Snapshot()), exec, e)
    {
      if e.RetryableError? && e.code == "flood_wait" {
        if e.retryAfter.Some? && e.retryAfter.value > 0 {
          accounts.Cool(exec, db.now + e.retryAfter.value);
        }
      } else if e.PermanentError? && e.code == "banned" {
        accounts.MarkBanned(exec);
      } else if e.code == "account_unauthorized" {
        if e.conflict {
          accounts.MarkBanned(exec);
        } else {
          accounts.MarkBroken(exec);
        }
      }
    }

    /** Runs a task whose accounts are reserved, to its final statement. */
    method RunReserved(task: ClaimedTask, tt: TaskType, exec: AccountId, byRole: map<Role, AccountId>,
                       ghost ids: seq<AccountId>, script: Script)
      returns (result: DispatchResult)
      requires Wired() && Distinct(ids)
      requires Fenced(db.Snapshot(), task.id, Some(task.lock)) ==> db.tasks[task.id].typeCode in db.types
      modifies db`tasks, db`accounts, db`usage, db`attempts
      ensures Concluded(old(db.Snapshot()), db.Snapshot(), task, exec, result)
      ensures Fenced(old(db.Snapshot()), task.id, Some(task.lock)) ==>
        AttemptShows(old(db.Snapshot()), db.Snapshot(), task, tt, exec, byRole, script, postponeDelay,
                     retryDelay)
      ensures RunsOut(old(db.Snapshot()), ReleaseEach(db.Snapshot(), ids, task.id), task, tt, exec, byRole, ids)
    {
      ghost var before := db.Snapshot();
      var attempt, number := Begin(task, tt, exec);
      if number.None? {
        result := HandleError(task, tt, exec, attempt, number, UNEXPECTED);
        HandledCloses(before, db.Snapshot(), task, false,
                      FinisherFor(UNEXPECTED, tt, number, postponeDelay, retryDelay), exec,
                      attempt, UNEXPECTED, result);
        LostRun(before, db.Snapshot(), task, tt, FreesAccountOnRetry(tt, UNEXPECTED),
                FinisherFor(UNEXPECTED, tt, number, postponeDelay, retryDelay), exec, byRole, ids, result);
        return;
      }
      var raised := Execute(task, tt, exec, byRole, script);
      ghost var executed := db.Snapshot();
      if raised.Some? {
        var e := raised.value;
        result := HandleError(task, tt, exec, attempt, number, e);
        ErrorOutcome(before, executed, db.Snapshot(), task, tt, exec, byRole, ids, script, e, postponeDelay, retryDelay,
                     result);
        return;
      }
      result := Complete(task, attempt.value);
      SuccessOutcome(before, executed, db.Snapshot(), task, tt, exec, byRole, ids, script, postponeDelay, retryDelay);
    }

    /** The end of a successful execution, from whatever tables the adapter's work has left: a
        claim still in force completes; one lost meanwhile leaves the queue alone and the
        dispatch reports a retry. */
    method Complete(task: ClaimedTask, attempt: nat) returns (result: DispatchResult)
      requires Wired()
      modifies db`tasks, db`attempts
      ensures db.Snapshot() == CompletedTables(old(db.Snapshot()), task, attempt)
      ensures !Fenced(db.Snapshot(), task.id, Some(task.lock))
      ensures result == if Fenced(old(db.Snapshot()), task.id, Some(task.lock)) then Completed else Retried
      ensures result.Completed? ==> ResultTells(db.tasks[task.id], result)
      ensures result.Retried? ==> db.tasks == old(db.tasks)
    {
      attempts.Close(Some(attempt), Success);
      var status := queue.Finish(task.id, Completing, Some(task.lock));
      return if status.Some? then Completed else Retried;
    }

    method ReleaseAll(ids: seq<AccountId>, task: TaskId)
      requires Wired()
      modifies db`accounts
      ensures db.Snapshot() == ReleaseEach(old(db.Snapshot()), ids, task)
    {
      ghost var before := db.Snapshot();
      for i := 0 to |ids|
        invariant db.tasks == before.tasks
        invariant ReleaseEach(before, ids, task) == ReleaseEach(db.Snapshot(), ids[i..], task)
      {
        assert ids[i..][0] == ids[i] && ids[i..][1..] == ids[i + 1..];
        accounts.ReleaseFor(ids[i], task);
      }
    }

    /** Runs a task whose accounts `ids` are reserved, then releases them, whatever happened. */
    method RunAndRelease(task: ClaimedTask, tt: TaskType, exec: AccountId, byRole: map<Role, AccountId>,
                         ids: seq<AccountId>, script: Script, ghost before: Db)
      returns (result: DispatchResult)
      requires Wired()
      requires ReservedFor(before, db.Snapshot(), task.id, set a | a in ids) && exec in ids && Distinct(ids)
      requires Unharmed(before, db.Snapshot())
      requires Fenced(before, task.id, Some(task.lock)) ==> before.tasks[task.id].typeCode in before.types
      modifies db`tasks, db`accounts, db`usage, db`attempts
      ensures Balanced(before, db.Snapshot(), task)
      ensures !Fenced(before, task.id, Some(task.lock)) ==> NoAttempt(before, db.Snapshot(), task, result)
      ensures Fenced(before, task.id, Some(task.lock)) ==>
        && ResultTells(db.tasks[task.id], result) && OneAttempt(before, db.Snapshot(), task.id, exec, result)
        && before.usage <= db.usage
        && AttemptShows(before, db.Snapshot(), task, tt, exec, byRole, script, postponeDelay, retryDelay)
      ensures RunsOut(old(db.Snapshot()), db.Snapshot(), task, tt, exec, byRole, ids)
    {
      ghost var reserved := db.Snapshot();
      result := RunReserved(task, tt, exec, byRole, ids, script);
      ghost var concluded := db.Snapshot();
      ReleaseBalances(before, reserved, concluded, task, exec, ids, result);
      ReleaseEachFrees(concluded, ids, task.id);
      ReleaseAll(ids, task.id);
      if Fenced(before, task.id, Some(task.lock)) {
        AttemptStands(reserved, concluded, before, db.Snapshot(), task, tt, exec, byRole, script,
                      postponeDelay, retryDelay);
      }
    }

    /** One dispatch, for any behaviour of the adapter. On return the reservation column is
        what it was, the task is not in progress under this lock, a lost claim left the queue
        alone, the result names the state of the row; and the task was attempted, exactly
        once, if and only if the claim was in force and some account could run it. For an
        enabled type, no account to run on means postponed, and a retry has counted an
        attempt. The whole is a run of the claiming executor in the system. */
    method Dispatch(task: ClaimedTask, script: Script, clock: real) returns (result: DispatchResult)
      requires Wired()
      requires Fenced(db.Snapshot(), task.id, Some(task.lock)) ==> db.tasks[task.id].typeCode == task.typeCode
      modifies db`tasks, db`accounts, db`usage, db`attempts, pacer
      ensures Dispatched(old(db.Snapshot()), db.Snapshot(), task, old(PaceAt(clock)), script, postponeDelay, retryDelay,
                         result)
    {
      ghost var before, pace := db.Snapshot(), PaceAt(clock);
      if task.typeCode !in db.types || !db.types[task.typeCode].enabled {
        var status := queue.Finish(task.id, Rescheduling(Some("unknown_task_type:" + task.typeCode), retryDelay),
                                   Some(task.lock));
        result := if status == Some(Failed) then FailedForGood else Retried;
        UnknownTypeIsARun(before, task, Rescheduling(Some("unknown_task_type:" + task.typeCode), retryDelay));
        return;
      }
      var tt := db.types[task.typeCode];
      if tt.usesTwoAccounts {
        result := DispatchPair(task, tt, script, clock);
      } else if task.accountId.Some? {
        result := DispatchFixed(task, tt, task.accountId.value, script, clock);
      } else {
        result := DispatchAutoPick(task, tt, script, clock);
      }
    }

    method DispatchPair(task: ClaimedTask, tt: TaskType, script: Script, clock: real) returns (result: DispatchResult)
      requires Wired() && MayPostpone(db.Snapshot(), task)
      requires TypeEnabled(db.Snapshot(), task.typeCode) && tt == db.types[task.typeCode] && tt.usesTwoAccounts
      modifies db`tasks, db`accounts, db`usage, db`attempts
      ensures Dispatched(old(db.Snapshot()), db.Snapshot(), task, old(PaceAt(clock)), script, postponeDelay, retryDelay,
                         result)
    {
      ghost var before, pace := db.Snapshot(), PaceAt(clock);
      var ok := ReserveDual(task, tt);
      if !ok {
        ghost var d := PairDecision(before, tt, task.sourceAccountId, task.targetAccountId, postponeDelay);
        RefusalBalances(before, before, task, tt, d);
        RefusedPairIsARun(before, task, tt, d);
        DispatchRefused(before, db.Snapshot(), task, pace, script, postponeDelay, retryDelay);
        return Postponed;
      }
      var source, target := task.sourceAccountId.value, task.targetAccountId.value;
      assert RunsOn(before, task, pace, target);
      PairReserves(before, source, target, task.id);
      result := RunAndRelease(task, tt, target, map[Source := source, Target := target], [source, target], script,
                              before);
      PairIsARun(before, db.Snapshot(), task, tt, source, target);
      DispatchRan(before, db.Snapshot(), task, pace, target, script, postponeDelay, retryDelay, result);
    }

    method DispatchFixed(task: ClaimedTask, tt: TaskType, a: AccountId, script: Script, clock: real)
      returns (result: DispatchResult)
      requires Wired() && MayPostpone(db.Snapshot(), task) && task.accountId == Some(a)
      requires TypeEnabled(db.Snapshot(), task.typeCode) && tt == db.types[task.typeCode] && !tt.usesTwoAccounts
      modifies db`tasks, db`accounts, db`usage, db`attempts, pacer
      ensures Dispatched(old(db.Snapshot()), db.Snapshot(), task, old(PaceAt(clock)), script, postponeDelay, retryDelay,
                         result)
    {
      ghost var before, pace := db.Snapshot(), PaceAt(clock);
      var ok := ReserveFixed(task, tt, a, clock);
      if !ok {
        if CanReserve(before, a) {
          ReserveAndGiveBack(before, a, task.id);
        }
        RefusalBalances(before, Touched(before, a), task, tt, FixedDecision(before, tt, pace, a, postponeDelay));
        RefusedFixedIsARun(before, a, task, tt, FixedDecision(before, tt, pace, a, postponeDelay));
        DispatchRefused(before, db.Snapshot(), task, pace, script, postponeDelay, retryDelay);
        return Postponed;
      }
      assert RunsOn(before, task, pace, a);
      FixedReserves(before, a, task.id);
      result := RunAndRelease(task, tt, a, map[Primary := a], [a], script, before);
      FixedIsARun(before, db.Snapshot(), task, tt, a);
      DispatchRan(before, db.Snapshot(), task, pace, a, script, postponeDelay, retryDelay, result);
    }

    method DispatchAutoPick(task: ClaimedTask, tt: TaskType, script: Script, clock: real)
      returns (result: DispatchResult)
      requires Wired() && MayPostpone(db.Snapshot(), task) && task.accountId.None?
      requires TypeEnabled(db.Snapshot(), task.typeCode) && tt == db.types[task.typeCode] && !tt.usesTwoAccounts
      modifies db`tasks, db`accounts, db`usage, db`attempts, pacer
      ensures Dispatched(old(db.Snapshot()), db.Snapshot(), task, old(PaceAt(clock)), script, postponeDelay, retryDelay,
                         result)
    {
      ghost var before, pace := db.Snapshot(), PaceAt(clock);
      var chosen := ReserveAutoPick(task, tt, clock);
      if chosen.None? {
        ghost var reason, delay :| NobodyFound(before, tt, pace, postponeDelay, reason, delay)
          && db.Snapshot() == PostponeTask(Tried(before, PickableAccounts(before)), task, delay, reason);
        TriedKeepsPickable(before, PickableAccounts(before), 0);
        RefusalBalances(before, Tried(before, PickableAccounts(before)), task, tt, RefusedFor(reason, delay, false));
        RefusedPickIsARun(before, PickableAccounts(before), task, tt, RefusedFor(reason, delay, false));
        DispatchRefused(before, db.Snapshot(), task, pace, script, postponeDelay, retryDelay);
        return Postponed;
      }
      var a := chosen.value;
      assert RunsOn(before, task, pace, a);
      PickReserves(before, AheadOf(before, a), a, task.id);
      result := RunAndRelease(task, tt, a, map[Primary := a], [a], script, before);
      PickIsARun(before, db.Snapshot(), AheadOf(before, a), task, tt, a);
      DispatchRan(before, db.Snapshot(), task, pace, a, script, postponeDelay, retryDelay, result);
    }
  }

  predicate MayPostpone(db: Db, task: ClaimedTask) {
    Fenced(db, task.id, Some(task.lock)) ==> db.tasks[task.id].typeCode == task.typeCode && task.typeCode in db.types
  }

  ghost predicate DispatchIsBalanced(x: Db, y: Db, task: ClaimedTask, result: DispatchResult) {
    && Balanced(x, y, task)
    && (Fenced(x, task.id, Some(task.lock)) ==> ResultTells(y.tasks[task.id], result))
    && (!Fenced(x, task.id, Some(task.lock)) ==> !result.Completed?)
  }

  ghost predicate DispatchAttempts(x: Db, y: Db, task: ClaimedTask, pace: Pace, result: DispatchResult) {
    var mine := Fenced(x, task.id, Some(task.lock));
    && (forall exec: AccountId :: mine && task.id in y.tasks && RunsOn(x, task, pace, exec) ==>
          OneAttempt(x, y, task.id, exec, result) && x.usage <= y.usage)
    && ((!mine || forall exec: AccountId :: !RunsOn(x, task, pace, exec)) ==> NoAttempt(x, y, task, result))
    && (TypeEnabled(x, task.typeCode) && (forall exec: AccountId :: !RunsOn(x, task, pace, exec)) ==>
          result.Postponed?)
    && (TypeEnabled(x, task.typeCode) && mine && result.Retried? ==>
          task.id in y.tasks && exists exec: AccountId :: OneAttempt(x, y, task.id, exec, result))
  }

  // The accounts charged, by the role of the operation.
  function RolesOf(tt: TaskType, source: Option<AccountId>, target: Option<AccountId>, exec: AccountId)
    : map<Role, AccountId>
  {
    if tt.usesTwoAccounts && source.Some? && target.Some? then map[Source := source.value, Target := target.value]
    else map[Primary := exec]
  }

  /** What a dispatch leaves on the row and in the usage log: of an account that could run the
      task, the attempt; of a type that is not enabled, a task handed back for that reason. */
  ghost predicate DispatchShows(x: Db, y: Db, task: ClaimedTask, pace: Pace, script: Script, postponeDelay: int,
                                retryDelay: int) {
    Fenced(x, task.id, Some(task.lock)) ==>
      && task.id in y.tasks
      && (forall exec: AccountId :: RunsOn(x, task, pace, exec) ==>
            var tt := x.types[task.typeCode];
            AttemptShows(x, y, task, tt, exec, RolesOf(tt, task.sourceAccountId, task.targetAccountId, exec), script,
                         postponeDelay, retryDelay))
      && (!TypeEnabled(x, task.typeCode) ==>
            var r, t := x.tasks[task.id], y.tasks[task.id];
            && t.lastError == Some("unknown_task_type:" + task.typeCode) && y.usage == x.usage
            && if r.attemptCount >= r.maxAttempts then t.status.Failed?
               else t.status.Retry? && t.runAfter == x.now + retryDelay)
  }

  // All that a dispatch promises.
  ghost predicate Dispatched(x: Db, y: Db, task: ClaimedTask, pace: Pace, script: Script, postponeDelay: int,
                             retryDelay: int, result: DispatchResult) {
    && DispatchIsBalanced(x, y, task, result) && DispatchIsARun(x, y, task)
    && DispatchAttempts(x, y, task, pace, result)
    && DispatchShows(x, y, task, pace, script, postponeDelay, retryDelay)
  }

  lemma DispatchRan(x: Db, y: Db, task: ClaimedTask, pace: Pace, exec: AccountId, script: Script, postponeDelay: int,
                    retryDelay: int, result: DispatchResult)
    requires RunsOn(x, task, pace, exec)
    requires !Fenced(x, task.id, Some(task.lock)) ==> NoAttempt(x, y, task, result)
    requires Fenced(x, task.id, Some(task.lock)) ==>
      var tt := x.types[task.typeCode];
      && task.id in y.tasks && OneAttempt(x, y, task.id, exec, result) && x.usage <= y.usage
      && AttemptShows(x, y, task, tt, exec, RolesOf(tt, task.sourceAccountId, task.targetAccountId, exec), script,
                      postponeDelay, retryDelay)
    ensures DispatchAttempts(x, y, task, pace, result)
    ensures DispatchShows(x, y, task, pace, script, postponeDelay, retryDelay)
  {
    forall other: AccountId | RunsOn(x, task, pace, other) ensures other == exec {
      RunsOnOne(x, task, pace, other, exec);
    }
  }

  lemma DispatchRefused(x: Db, y: Db, task: ClaimedTask, pace: Pace, script: Script, postponeDelay: int,
                        retryDelay: int)
    requires TypeEnabled(x, task.typeCode) && NoAttempt(x, y, task, Postponed)
    requires Fenced(x, task.id, Some(task.lock)) ==> task.id in y.tasks
    requires forall exec: AccountId :: !RunsOn(x, task, pace, exec)
    ensures DispatchAttempts(x, y, task, pace, Postponed)
    ensures DispatchShows(x, y, task, pace, script, postponeDelay, retryDelay)
  {
  }

  datatype Trial =
    | Nobody
    | Unfit(account: AccountId, check: CheckResult)
    | TooEarly(account: AccountId, wait: real)
    | Got(account: AccountId)

  ghost predicate TrialIs(db: Db, pace: Pace, id: TaskId, tt: TaskType, rejected: set<AccountId>, trial: Trial) {
    match trial
    case Nobody => forall a :: Pickable(db, a) ==> a in rejected
    case Unfit(a, check) => IsLruPick(db, rejected, a) && check == CheckAccount(db, a, tt, Primary) && !check.CheckOk?
    case TooEarly(a, wait) =>
      IsLruPick(db, rejected, a) && HasBudget(db, a, tt) && !SlotFree(pace, tt, a) && wait == WaitFor(pace, a)
    case Got(a) => IsLruPick(db, rejected, a) && HasBudget(db, a, tt) && SlotFree(pace, tt, a)
  }

  function AfterTrial(db: Db, id: TaskId, trial: Trial): Db
    requires trial.Got? ==> trial.account in db.accounts
    requires trial.Unfit? || trial.TooEarly? ==> trial.account in db.accounts
  {
    match trial
    case Nobody => db
    case Got(a) => TakePicked(db, a, id)
    case _ => Release(TakePicked(db, trial.account, id), trial.account, id)
  }

  // A trial during the search says the same of the tables as they were before the search.
  lemma TrialOnTried(db: Db, tt: TaskType, pace: Pace, tried: set<AccountId>, id: TaskId, trial: Trial)
    requires Scanned(db, tt, pace, tried) && TrialIs(Tried(db, tried), pace, id, tt, tried, trial) && !trial.Nobody?
    ensures TrialIs(db, pace, id, tt, tried, trial) && trial.account in PickableAccounts(db) - tried
    ensures !trial.Got? ==> AfterTrial(Tried(db, tried), id, trial) == Tried(db, tried + {trial.account})
    ensures trial.Got? ==> AfterTrial(Tried(db, tried), id, trial) == TakePicked(Tried(db, tried), trial.account, id)
  {
    NextPick(db, tried, trial.account);
    CheckReadsUsageOnly(db, Tried(db, tried), trial.account, tt, Primary);
    TryAndGiveBack(db, tried, trial.account, id);
  }
}
