/** The worker process: claim, dispatch, count, again. */
module Worker {
  import opened Schema
  import opened QueueTable
  import opened Effects
  import opened Reserving
  import opened Executing
  import opened Dispatch
  import opened Pacing
  import opened System
  import opened UsageLog
  import opened DedupHistory
  import BudgetBound
  import Resumption
  import opened Pipeline
  import opened Simulation

  function Snapshot(id: TaskId, t: Task, lock: Locker): ClaimedTask {
    ClaimedTask(id, t.typeCode, t.accountId, t.sourceAccountId, t.targetAccountId, t.payload.lastCompletedStep, lock)
  }

  // No task is in progress under the lock that was not before, as after a crash.
  ghost predicate HoldsNoMore(x: Db, y: Db, lock: Locker) {
    forall id: TaskId :: Fenced(y, id, Some(lock)) ==> Fenced(x, id, Some(lock))
  }

  function DoneTasks(db: Db): set<TaskId> {
    set id | id in db.tasks && db.tasks[id].status.Done?
  }

  // Any other task than the ready ones is left alone.
  ghost predicate OnlyReadyTouched(x: Db, y: Db, codes: Option<set<string>>) {
    y.tasks.Keys == x.tasks.Keys && forall id :: id in x.tasks && !Ready(x, id, codes) ==> y.tasks[id] == x.tasks[id]
  }

  /** What one turn of the loop keeps: nothing of the worker's is left behind, and the tasks
      that became done are as many as the result says. */
  ghost predicate TurnDone(x: Db, y: Db, lock: Locker, codes: Option<set<string>>, completed: nat) {
    && HoldsNoMore(x, y, lock) && Reservations(y) == Reservations(x) && OnlyReadyTouched(x, y, codes)
    && DoneTasks(x) <= DoneTasks(y) && |DoneTasks(y)| == |DoneTasks(x)| + completed
  }

  /** What the rest of the queue sees of one claimed and dispatched task. */
  ghost predicate OneTaskMoved(x: Db, y: Db, id: TaskId, lock: Locker, result: DispatchResult) {
    && y.tasks.Keys == x.tasks.Keys && id in x.tasks
    && (forall other :: other in x.tasks && other != id ==> y.tasks[other] == x.tasks[other])
    && Claimable(x.tasks[id].status) && !Fenced(y, id, Some(lock))
    && (y.tasks[id].status.Done? <==> result.Completed?)
  }

  lemma ClaimThenDispatch(x: Db, c: Db, y: Db, id: TaskId, lock: Locker, ttl: int, codes: Option<set<string>>,
                          result: DispatchResult)
    requires Ready(x, id, codes) && c == Claim(x, id, lock, ttl)
    requires DispatchIsBalanced(c, y, Snapshot(id, c.tasks[id], lock), result)
    ensures OneTaskMoved(x, y, id, lock, result) && Reservations(y) == Reservations(x)
  {
    assert Fenced(c, id, Some(lock));
  }

  lemma MovedTaskIsCounted(x: Db, y: Db, id: TaskId, lock: Locker, codes: Option<set<string>>, result: DispatchResult)
    requires Ready(x, id, codes)
    requires OneTaskMoved(x, y, id, lock, result) && Reservations(y) == Reservations(x)
    ensures TurnDone(x, y, lock, codes, if result.Completed? then 1 else 0)
  {
    forall other: TaskId | Fenced(y, other, Some(lock)) ensures Fenced(x, other, Some(lock)) {
      assert other != id;
    }
    assert id !in DoneTasks(x);
    assert DoneTasks(y) == if result.Completed? then DoneTasks(x) + {id} else DoneTasks(x);
  }

  // Every enabled type has its charges covered by the budget check.
  ghost predicate AllCheckable(x: Db) {
    forall code :: TypeEnabled(x, code) ==> Checkable(x.types[code])
  }

  /** A turn is a run of the worker in the system: the claim, then the dispatch. */
  lemma {:induction false} TurnIsARun(worker: nat, x: Db, y: Db, id: TaskId, ttl: int, codes: Option<set<string>>)
    requires Ready(x, id, codes)
    requires var c := Claim(x, id, Locker.Worker(worker), ttl);
      DispatchIsARun(c, y, Snapshot(id, c.tasks[id], Locker.Worker(worker)))
    ensures LeadsTo(WorkerActor(worker), x, Idle, y, Idle, AllCheckable(x))
  {
    var a, c := WorkerActor(worker), Claim(x, id, Locker.Worker(worker), ttl);
    var task := Snapshot(id, c.tasks[id], Locker.Worker(worker));
    assert AllCheckable(x) ==> ChecksCover(c, task);
    forall p: Phase | Fresh(p) && p.task == id ensures LeadsTo(a, c, p, y, Idle, AllCheckable(x)) {
      assert Dispatches(a, p, task);
      assert LeadsTo(a, c, p, y, Idle, ChecksCover(c, task));
      if ChecksCover(c, task) {
        Weaken(a, c, p, y, Idle, AllCheckable(x));
      }
    }
    forall s: System | At(s, a, x, Idle) ensures Opens(s, a, ClaimTask(id, ttl), c, id) {
      ClaimOpens(s, a, x, id, ttl);
    }
    OpeningLeads(a, x, ClaimTask(id, ttl), c, id, y, AllCheckable(x));
  }

  lemma {:induction false} ClaimOpens(s: System, a: Actor, x: Db, id: TaskId, ttl: int)
    requires a.WorkerActor? && At(s, a, x, Idle) && Ready(x, id, None)
    ensures Opens(s, a, ClaimTask(id, ttl), Claim(x, id, LockOf(a), ttl), id)
  {
  }

  /** A claim and the dispatch after it, seen from the loop. */
  lemma TurnIsDone(worker: nat, x: Db, y: Db, id: TaskId, ttl: int, codes: Option<set<string>>, result: DispatchResult)
    requires Ready(x, id, codes)
    requires var c := Claim(x, id, Locker.Worker(worker), ttl);
      var task := Snapshot(id, c.tasks[id], Locker.Worker(worker));
      DispatchIsBalanced(c, y, task, result) && DispatchIsARun(c, y, task)
    ensures TurnDone(x, y, Locker.Worker(worker), codes, if result.Completed? then 1 else 0)
    ensures y.now == x.now && LeadsTo(WorkerActor(worker), x, Idle, y, Idle, AllCheckable(x))
  {
    var c := Claim(x, id, Locker.Worker(worker), ttl);
    ClaimThenDispatch(x, c, y, id, Locker.Worker(worker), ttl, codes, result);
    MovedTaskIsCounted(x, y, id, Locker.Worker(worker), codes, result);
    TurnIsARun(worker, x, y, id, ttl, codes);
  }

  /** What holds of the table in every reachable state of the system holds after the worker's
      turns: an active task is the newest of its key. */
  lemma RunKeepsKeys(a: Actor, x: Db, y: Db, checked: bool)
    requires LeadsTo(a, x, Idle, y, Idle, checked) && ActiveIsNewest(x) && FreshIds(x)
    ensures ActiveIsNewest(y) && FreshIds(y)
  {
    var s := AtRest(x);
    assert At(s, a, x, Idle);
    var t :| Path(s, a, t, checked) && At(t, a, y, Idle);
    var steps :| OwnRun(s, a, steps, checked) && Exec(s, steps) == t;
    ActiveTaskIsNewest(s, steps);
    IdsStayFreshInRun(s, steps);
  }

  // ----- the budget of a worker on its own -----

  ghost predicate NobodyElse(s: System, a: Actor) {
    forall b :: b != a ==> PhaseOf(s, b).Idle?
  }

  lemma {:induction false} OwnStepStripsNothing(s: System, a: Actor, step: Step)
    requires NobodyElse(s, a) && OwnStep(s, a, step, true)
    ensures !BudgetBound.Strips(s, step) && BudgetBound.CheckedStep(step) && NobodyElse(Apply(s, step), a)
  {
    forall b | b != a ensures PhaseOf(Apply(s, step), b).Idle? {
      match step
      case By(_, act) => OthersKeepPhase(s, b, a, act);
      case Around(event) => EventsDoNotMove(s, event, b);
    }
    forall b, account | BudgetBound.Uses(s, b, account) ensures b == a {
    }
  }

  lemma {:induction false} OwnRunIsKept(s: System, a: Actor, steps: seq<Step>)
    requires NobodyElse(s, a) && OwnRun(s, a, steps, true)
    ensures BudgetBound.KeptRun(s, steps)
    decreases |steps|
  {
    if steps != [] {
      OwnStepStripsNothing(s, a, steps[0]);
      OwnRunIsKept(Apply(s, steps[0]), a, steps[1..]);
    }
  }

  /** Every charge is covered by a check, and use in the last hour is within one execution of
      the gates' limit. */
  ghost predicate Budgeted(x: Db, account: AccountId, op: OpId, limit: real, unit: nat) {
    && FreshIds(x) && AllCheckable(x) && BudgetBound.DistinctOps(x) && BudgetBound.Gated(x, op, limit, unit)
    && Units(RowsSince(x.usage, account, op, x.now - 3600)) as real <= limit + unit as real
  }

  lemma RunKeepsUse(a: Actor, x: Db, y: Db, account: AccountId, op: OpId, limit: real, unit: nat)
    requires LeadsTo(a, x, Idle, y, Idle, true) && FreshIds(x)
    requires BudgetBound.DistinctOps(x) && BudgetBound.Gated(x, op, limit, unit)
    requires Used(x, account, op) as real <= limit + unit as real
    ensures FreshIds(y) && Used(y, account, op) as real <= limit + unit as real
  {
    var s := AtRest(x);
    assert At(s, a, x, Idle);
    var t :| Path(s, a, t, true) && At(t, a, y, Idle);
    var steps :| OwnRun(s, a, steps, true) && Exec(s, steps) == t;
    OwnRunIsKept(s, a, steps);
    BudgetBound.BudgetRun(s, steps, account, op, limit, unit);
    IdsStayFreshInRun(s, steps);
  }

  lemma RunKeepsBudget(a: Actor, x: Db, y: Db, account: AccountId, op: OpId, limit: real, unit: nat)
    requires LeadsTo(a, x, Idle, y, Idle, true) && Budgeted(x, account, op, limit, unit)
    requires y.types == x.types && y.thresholdOverride == x.thresholdOverride
    ensures Budgeted(y, account, op, limit, unit)
  {
    UnitsOfHour(x.usage, account, op, x.now);
    UnitsOfHour(y.usage, account, op, y.now);
    RunKeepsUse(a, x, y, account, op, limit, unit);
    SameTypesSameGates(x, y, op, limit, unit);
  }

  lemma SameTypesSameGates(x: Db, y: Db, op: OpId, limit: real, unit: nat)
    requires y.types == x.types && y.thresholdOverride == x.thresholdOverride
    requires AllCheckable(x) && BudgetBound.DistinctOps(x) && BudgetBound.Gated(x, op, limit, unit)
    ensures AllCheckable(y) && BudgetBound.DistinctOps(y) && BudgetBound.Gated(y, op, limit, unit)
  {
    assert forall code :: TypeEnabled(x, code) == TypeEnabled(y, code);
    assert forall code, row, o :: BudgetBound.Charges(x, code, row, o) == BudgetBound.Charges(y, code, row, o);
    assert forall code, row :: BudgetBound.Charges(x, code, row, op) == BudgetBound.Charges(y, code, row, op);
  }

  lemma TimeKeepsBudget(x: Db, now: Time, account: AccountId, op: OpId, limit: real, unit: nat)
    requires Budgeted(x, account, op, limit, unit) && now >= x.now
    ensures Budgeted(x.(now := now), account, op, limit, unit)
  {
    WindowSlides(x.usage, account, op, x.now, now);
    UnitsOfHour(x.usage, account, op, x.now);
    UnitsOfHour(x.usage, account, op, now);
    SameTypesSameGates(x, x.(now := now), op, limit, unit);
  }

  lemma {:induction false} IdsStayFreshInRun(s: System, steps: seq<Step>)
    requires FreshIds(s.db)
    ensures FreshIds(Exec(s, steps).db)
    decreases |steps|
  {
    if steps != [] {
      IdsStayFresh(s, steps[0]);
      IdsStayFreshInRun(Apply(s, steps[0]), steps[1..]);
    }
  }

  // ----- what a turn does to the row it claims -----

  /** The attempt of a turn is that of the row it claimed: on the row's pair or fixed account if
      it names one, from behind the row's own recorded step. */
  ghost predicate RowAttempted(x: Db, y: Db, id: TaskId, lock: Locker, ttl: int, exec: AccountId, script: Script,
                               postponeDelay: int, retryDelay: int)
    requires id in x.tasks && x.tasks[id].typeCode in x.types
  {
    var r := x.tasks[id];
    var tt := x.types[r.typeCode];
    && (tt.usesTwoAccounts ==> r.sourceAccountId.Some? && r.targetAccountId == Some(exec))
    && (!tt.usesTwoAccounts && r.accountId.Some? ==> r.accountId == Some(exec))
    && AttemptShows(WithClaimed(x, id, lock, ttl), y,
                    ClaimedTask(id, r.typeCode, r.accountId, r.sourceAccountId, r.targetAccountId,
                                r.payload.lastCompletedStep, lock),
                    tt, exec, RolesOf(tt, r.sourceAccountId, r.targetAccountId, exec), script, postponeDelay,
                    retryDelay)
  }

  // The account a turn on this row runs on, if any.
  ghost predicate RowRunsOn(x: Db, id: TaskId, lock: Locker, ttl: int, pace: Pace, exec: AccountId)
    requires id in x.tasks
  {
    var r := x.tasks[id];
    RunsOn(WithClaimed(x, id, lock, ttl),
           ClaimedTask(id, r.typeCode, r.accountId, r.sourceAccountId, r.targetAccountId,
                       r.payload.lastCompletedStep, lock),
           pace, exec)
  }

  ghost predicate RowRefused(x: Db, y: Db, id: TaskId) {
    && y.attempts == x.attempts && y.usage == x.usage && id in x.tasks && id in y.tasks
    && y.tasks[id].attemptCount == x.tasks[id].attemptCount
  }

  /** A turn claims a ready row of the highest ready priority; and then it attempts that row on
      the account that can run it, or refuses it and charges nothing. */
  ghost predicate TurnShows(x: Db, y: Db, id: TaskId, lock: Locker, ttl: int, codes: Option<set<string>>, pace: Pace,
                            script: Script, postponeDelay: int, retryDelay: int) {
    && BestClaimable(x, id, codes)
    && (forall exec: AccountId :: RowRunsOn(x, id, lock, ttl, pace, exec) ==>
          x.tasks[id].typeCode in x.types && RowAttempted(x, y, id, lock, ttl, exec, script, postponeDelay, retryDelay))
    && ((forall exec: AccountId :: !RowRunsOn(x, id, lock, ttl, pace, exec)) ==> RowRefused(x, y, id))
  }

  lemma RowIsAttempted(x: Db, y: Db, id: TaskId, lock: Locker, ttl: int, pace: Pace, script: Script, postponeDelay: int,
                       retryDelay: int, exec: AccountId)
    requires id in x.tasks && RowRunsOn(x, id, lock, ttl, pace, exec)
    requires var c := Claim(x, id, lock, ttl);
      DispatchShows(c, y, Snapshot(id, c.tasks[id], lock), pace, script, postponeDelay, retryDelay)
    ensures x.tasks[id].typeCode in x.types
    ensures RowAttempted(x, y, id, lock, ttl, exec, script, postponeDelay, retryDelay)
  {
    ClaimIsWithClaimed(x, id, lock, ttl);
    var c := Claim(x, id, lock, ttl);
    assert Fenced(c, id, Some(lock));
    assert RunsOn(c, Snapshot(id, c.tasks[id], lock), pace, exec);
  }

  lemma RowIsRefused(x: Db, y: Db, id: TaskId, lock: Locker, ttl: int, pace: Pace,
                     result: DispatchResult)
    requires id in x.tasks && forall exec: AccountId :: !RowRunsOn(x, id, lock, ttl, pace, exec)
    requires var c := Claim(x, id, lock, ttl);
      DispatchAttempts(c, y, Snapshot(id, c.tasks[id], lock), pace, result) && id in y.tasks
    ensures RowRefused(x, y, id)
  {
    ClaimIsWithClaimed(x, id, lock, ttl);
    var c := Claim(x, id, lock, ttl);
    forall exec: AccountId ensures !RunsOn(c, Snapshot(id, c.tasks[id], lock), pace, exec) {
      assert !RowRunsOn(x, id, lock, ttl, pace, exec);
    }
    assert Fenced(c, id, Some(lock));
  }

  lemma TurnIsShown(x: Db, y: Db, id: TaskId, lock: Locker, ttl: int, codes: Option<set<string>>, pace: Pace,
                    script: Script, postponeDelay: int, retryDelay: int, result: DispatchResult)
    requires ClaimChoice(x, codes, id)
    requires var c := Claim(x, id, lock, ttl);
      var task := Snapshot(id, c.tasks[id], lock);
      && DispatchIsBalanced(c, y, task, result) && DispatchAttempts(c, y, task, pace, result)
      && DispatchShows(c, y, task, pace, script, postponeDelay, retryDelay)
    ensures TurnShows(x, y, id, lock, ttl, codes, pace, script, postponeDelay, retryDelay)
  {
    ClaimTakesBest(x, id, codes);
    forall exec: AccountId | RowRunsOn(x, id, lock, ttl, pace, exec)
      ensures x.tasks[id].typeCode in x.types
      ensures RowAttempted(x, y, id, lock, ttl, exec, script, postponeDelay, retryDelay)
    {
      RowIsAttempted(x, y, id, lock, ttl, pace, script, postponeDelay, retryDelay, exec);
    }
    if forall exec: AccountId :: !RowRunsOn(x, id, lock, ttl, pace, exec) {
      RowIsRefused(x, y, id, lock, ttl, pace, result);
    }
  }

  /** A turn on a row of a type with a pipeline is one of the executions the resumption theorem
      is about, from the row's own recorded step; no operation up to that step is paid again. */
  lemma TurnResumes(x: Db, y: Db, id: TaskId, lock: Locker, ttl: int, codes: Option<set<string>>, pace: Pace,
                    script: Script, postponeDelay: int, retryDelay: int, exec: AccountId)
    returns (e: Resumption.Execution)
    requires TurnShows(x, y, id, lock, ttl, codes, pace, script, postponeDelay, retryDelay)
    requires RowRunsOn(x, id, lock, ttl, pace, exec)
    requires x.tasks[id].typeCode in x.types && IsMultiOp(x.types[x.tasks[id].typeCode].code)
    ensures var steps := PipelineOf(x.types[x.tasks[id].typeCode]);
      && e.before == WithClaimed(x, id, lock, ttl) && e.account == exec && e.lock == Some(lock) && id in y.tasks
      && Resumption.Untouched(Resumption.AfterExecution(e, steps, id), y, id)
    ensures var steps := PipelineOf(x.types[x.tasks[id].typeCode]);
      forall p: nat :: Resumption.RecordedAt(steps, x.tasks[id].payload.lastCompletedStep, p) ==>
        Resumption.PaidOnlyAfter(x, y, steps, p)
  {
    var tt := x.types[x.tasks[id].typeCode];
    assert RowAttempted(x, y, id, lock, ttl, exec, script, postponeDelay, retryDelay);
    e := Resumption.AttemptIsAnExecution(WithClaimed(x, id, lock, ttl), y, id, Some(lock), tt, exec, script);
    forall p: nat | Resumption.RecordedAt(PipelineOf(tt), x.tasks[id].payload.lastCompletedStep, p)
      ensures Resumption.PaidOnlyAfter(x, y, PipelineOf(tt), p)
    {
      Resumption.EarlierStepsUnpaid(WithClaimed(x, id, lock, ttl), y, id, tt, p, exec, script);
    }
  }

  /** What a turn that found a task promises. */
  ghost predicate TurnWorked(worker: nat, x: Db, y: Db, id: TaskId, ttl: int, codes: Option<set<string>>, pace: Pace,
                             script: Script, postponeDelay: int, retryDelay: int, result: DispatchResult) {
    && TurnShows(x, y, id, Locker.Worker(worker), ttl, codes, pace, script, postponeDelay, retryDelay)
    && TurnDone(x, y, Locker.Worker(worker), codes, if result.Completed? then 1 else 0)
    && y.now == x.now && LeadsTo(WorkerActor(worker), x, Idle, y, Idle, AllCheckable(x))
  }

  lemma TurnWorks(worker: nat, x: Db, y: Db, id: TaskId, ttl: int, codes: Option<set<string>>, pace: Pace,
                  script: Script, postponeDelay: int, retryDelay: int, result: DispatchResult)
    requires ClaimChoice(x, codes, id)
    requires var c := Claim(x, id, Locker.Worker(worker), ttl);
      Dispatched(c, y, Snapshot(id, c.tasks[id], Locker.Worker(worker)), pace, script, postponeDelay, retryDelay,
                 result)
    ensures TurnWorked(worker, x, y, id, ttl, codes, pace, script, postponeDelay, retryDelay, result)
  {
    TurnIsDone(worker, x, y, id, ttl, codes, result);
    TurnIsShown(x, y, id, Locker.Worker(worker), ttl, codes, pace, script, postponeDelay, retryDelay, result);
  }

  lemma NothingReady(worker: nat, x: Db, codes: Option<set<string>>)
    ensures TurnDone(x, x, Locker.Worker(worker), codes, 0)
    ensures LeadsTo(WorkerActor(worker), x, Idle, x, Idle, AllCheckable(x))
  {
    Stays(WorkerActor(worker), x, Idle, AllCheckable(x));
  }

  // One turn of the loop as the outside world shapes it: the adapter, the pacing clock and
  // the seconds that pass before the next turn.
  datatype Turn = Turn(script: Script, clock: real, elapsed: nat)

  // The tables and the pacing slots between two turns.
  datatype Moment = Moment(db: Db, slots: map<AccountId, real>)

  /** One turn and the time until the next: with a claimable task it shows what a turn shows, with
      none it leaves the tables alone. */
  ghost predicate TurnTaken(m: Moment, n: Moment, lock: Locker, ttl: int, codes: Option<set<string>>, interval: real,
                            turn: Turn, postponeDelay: int, retryDelay: int) {
    var here := n.db.(now := m.db.now);
    && n.db.now == m.db.now + turn.elapsed
    && if exists t: TaskId :: t in m.db.tasks && MayBeClaimed(m.db.tasks[t], m.db.now, codes) then
         exists row: TaskId :: TurnShows(m.db, here, row, lock, ttl, codes, Pace(interval, m.slots, turn.clock),
                                         turn.script, postponeDelay, retryDelay)
       else here == m.db && n.slots == m.slots
  }

  // The moments of a run, turn by turn.
  ghost predicate TurnsTaken(trace: seq<Moment>, lock: Locker, ttl: int, codes: Option<set<string>>, interval: real,
                             turns: seq<Turn>, postponeDelay: int, retryDelay: int) {
    && |trace| == |turns| + 1
    && forall i {:trigger turns[i]} :: 0 <= i < |turns| ==>
         TurnTaken(trace[i], trace[i + 1], lock, ttl, codes, interval, turns[i], postponeDelay, retryDelay)
  }

  lemma OneMoreTurn(trace: seq<Moment>, lock: Locker, ttl: int, codes: Option<set<string>>, interval: real,
                    turns: seq<Turn>, i: nat, next: Moment, postponeDelay: int, retryDelay: int)
    requires i < |turns| && TurnsTaken(trace, lock, ttl, codes, interval, turns[..i], postponeDelay, retryDelay)
    requires TurnTaken(trace[i], next, lock, ttl, codes, interval, turns[i], postponeDelay, retryDelay)
    ensures TurnsTaken(trace + [next], lock, ttl, codes, interval, turns[..i + 1], postponeDelay, retryDelay)
  {
    var more := trace + [next];
    forall k | 0 <= k < |turns[..i + 1]|
      ensures TurnTaken(more[k], more[k + 1], lock, ttl, codes, interval, turns[..i + 1][k], postponeDelay, retryDelay)
    {
      if k < i {
        assert turns[..i][k] == turns[..i + 1][k];
      }
    }
  }

  lemma TurnIsTaken(m: Moment, n: Moment, lock: Locker, ttl: int, codes: Option<set<string>>, interval: real,
                    turn: Turn, postponeDelay: int, retryDelay: int, worked: bool, row: TaskId)
    requires n.db.now == m.db.now + turn.elapsed
    requires worked <==> exists t: TaskId :: Ready(m.db, t, codes)
    requires var here := n.db.(now := m.db.now);
      if worked then
        TurnShows(m.db, here, row, lock, ttl, codes, Pace(interval, m.slots, turn.clock), turn.script,
                  postponeDelay, retryDelay)
      else here == m.db && n.slots == m.slots
    ensures TurnTaken(m, n, lock, ttl, codes, interval, turn, postponeDelay, retryDelay)
  {
    forall t: TaskId
      ensures Ready(m.db, t, codes) <==> t in m.db.tasks && MayBeClaimed(m.db.tasks[t], m.db.now, codes)
    {
      ReadyIff(m.db, t, codes);
    }
  }

  // What a turn and the time after it keep: sound keys, and every budget that held.
  ghost predicate PromisesKept(x: Db, y: Db) {
    && (SoundKeys(x) ==> SoundKeys(y))
    && forall account, op, limit, unit ::
         Budgeted(x, account, op, limit, unit) ==> Budgeted(y, account, op, limit, unit)
  }

  lemma TurnKeepsPromises(a: Actor, x: Db, y: Db, now: Time)
    requires LeadsTo(a, x, Idle, y, Idle, AllCheckable(x)) && now >= y.now
    requires y.types == x.types && y.thresholdOverride == x.thresholdOverride
    ensures PromisesKept(x, y.(now := now))
  {
    if SoundKeys(x) {
      RunKeepsKeys(a, x, y, AllCheckable(x));
      TimeChangesNoRow(y, now, LockOf(a));
    }
    forall account, op, limit, unit | Budgeted(x, account, op, limit, unit)
      ensures Budgeted(y.(now := now), account, op, limit, unit)
    {
      RunKeepsBudget(a, x, y, account, op, limit, unit);
      TimeKeepsBudget(y, now, account, op, limit, unit);
    }
  }

  class QueueWorker {
    const id: nat
    const ttl: int
    const codes: Option<set<string>>
    const dispatcher: TaskDispatcher
    var processed: nat

    constructor (id: nat, ttl: int, codes: Option<set<string>>, dispatcher: TaskDispatcher)
      ensures this.id == id && this.ttl == ttl && this.codes == codes && this.dispatcher == dispatcher && processed == 0
    {
      this.id, this.ttl, this.codes, this.dispatcher, processed := id, ttl, codes, dispatcher, 0;
    }

    /** Claims and processes one task, or finds none ready. */
    method TakeTurn(script: Script, clock: real) returns (worked: bool, ghost row: TaskId)
      requires dispatcher.Wired()
      modifies this`processed, dispatcher.db, dispatcher.pacer
      ensures worked <==> exists t: TaskId :: Ready(old(dispatcher.db.Snapshot()), t, codes)
      ensures !worked ==>
        dispatcher.db.Snapshot() == old(dispatcher.db.Snapshot())
        && dispatcher.pacer.nextAllowed == old(dispatcher.pacer.nextAllowed)
      ensures worked ==>
        TurnShows(old(dispatcher.db.Snapshot()), dispatcher.db.Snapshot(), row, Worker(id), ttl, codes,
                  old(dispatcher.PaceAt(clock)), script, dispatcher.postponeDelay, dispatcher.retryDelay)
      ensures processed >= old(processed)
      ensures TurnDone(old(dispatcher.db.Snapshot()), dispatcher.db.Snapshot(), Worker(id), codes,
                       processed - old(processed))
      ensures dispatcher.db.now == old(dispatcher.db.now)
      ensures var x := old(dispatcher.db.Snapshot());
        LeadsTo(WorkerActor(id), x, Idle, dispatcher.db.Snapshot(), Idle, AllCheckable(x))
    {
      ghost var before := dispatcher.db.Snapshot();
      var claimed := dispatcher.queue.ClaimNext(Worker(id), ttl, codes);
      if claimed.None? {
        NothingReady(id, before, codes);
        return false, 0;
      }
      var task := Snapshot(claimed.value, dispatcher.db.tasks[claimed.value], Worker(id));
      ghost var pace := dispatcher.PaceAt(clock);
      var result := dispatcher.Dispatch(task, script, clock);
      TurnWorks(id, before, dispatcher.db.Snapshot(), claimed.value, ttl, codes, pace, script,
                dispatcher.postponeDelay, dispatcher.retryDelay, result);
      if result.Completed? {
        processed := processed + 1;
      }
      return true, claimed.value;
    }

    function Now(): Moment
      reads this, dispatcher, dispatcher.db, dispatcher.pacer
    {
      Moment(dispatcher.db.Snapshot(), dispatcher.pacer.nextAllowed)
    }

    /** A turn and the time until the next one. */
    method TakeTimedTurn(turn: Turn)
      requires dispatcher.Wired()
      modifies this`processed, dispatcher.db, dispatcher.pacer
      ensures processed >= old(processed)
      ensures TurnTaken(old(Now()), Now(), Worker(id), ttl, codes, dispatcher.pacer.interval, turn,
                        dispatcher.postponeDelay, dispatcher.retryDelay)
      ensures TurnDone(old(dispatcher.db.Snapshot()), dispatcher.db.Snapshot(), Worker(id), codes,
                       processed - old(processed))
      ensures PromisesKept(old(dispatcher.db.Snapshot()), dispatcher.db.Snapshot())
    {
      ghost var start, here := Now(), dispatcher.db.Snapshot();
      var worked, row := TakeTurn(turn.script, turn.clock);
      ghost var after := dispatcher.db.Snapshot();
      dispatcher.db.now := dispatcher.db.now + turn.elapsed;
      TurnOutlastsTime(here, after, dispatcher.db.now, Worker(id), codes, processed - old(processed));
      TurnIsTaken(start, Now(), Worker(id), ttl, codes, dispatcher.pacer.interval, turn, dispatcher.postponeDelay,
                  dispatcher.retryDelay, worked, row);
      TurnKeepsPromises(WorkerActor(id), here, after, dispatcher.db.now);
    }

    /** However the adapter behaves and however long the worker runs, between turns it holds no
        task it did not hold at the start, every reservation is as it was, and its counter is
        exactly the number of tasks that became done. */
    method Run(turns: seq<Turn>) returns (ghost trace: seq<Moment>)
      requires dispatcher.Wired()
      modifies this`processed, dispatcher.db, dispatcher.pacer
      ensures TurnsTaken(trace, Worker(id), ttl, codes, dispatcher.pacer.interval, turns, dispatcher.postponeDelay,
                         dispatcher.retryDelay)
      ensures trace[0] == old(Now()) && trace[|turns|] == Now()
      ensures HoldsNoMore(old(dispatcher.db.Snapshot()), dispatcher.db.Snapshot(), Worker(id))
      ensures Reservations(dispatcher.db.Snapshot()) == old(Reservations(dispatcher.db.Snapshot()))
      ensures DoneTasks(old(dispatcher.db.Snapshot())) <= DoneTasks(dispatcher.db.Snapshot())
      ensures processed == old(processed)
          + |DoneTasks(dispatcher.db.Snapshot())| - |DoneTasks(old(dispatcher.db.Snapshot()))|
      ensures old(SoundKeys(dispatcher.db.Snapshot())) ==> SoundKeys(dispatcher.db.Snapshot())
      ensures forall account, op, limit, unit ::
        old(Budgeted(dispatcher.db.Snapshot(), account, op, limit, unit)) ==>
          Budgeted(dispatcher.db.Snapshot(), account, op, limit, unit)
    {
      ghost var before := dispatcher.db.Snapshot();
      trace := [Now()];
      for i := 0 to |turns|
        invariant TurnsTaken(trace, Worker(id), ttl, codes, dispatcher.pacer.interval, turns[..i],
                             dispatcher.postponeDelay, dispatcher.retryDelay)
        invariant trace[0] == old(Now()) && trace[i] == Now()
        invariant HoldsNoMore(before, dispatcher.db.Snapshot(), Worker(id))
        invariant Reservations(dispatcher.db.Snapshot()) == Reservations(before)
        invariant DoneTasks(before) <= DoneTasks(dispatcher.db.Snapshot())
        invariant processed == old(processed) + |DoneTasks(dispatcher.db.Snapshot())| - |DoneTasks(before)|
        invariant SoundKeys(before) ==> SoundKeys(dispatcher.db.Snapshot())
        invariant forall account, op, limit, unit ::
          Budgeted(before, account, op, limit, unit) ==> Budgeted(dispatcher.db.Snapshot(), account, op, limit, unit)
      {
        TakeTimedTurn(turns[i]);
        OneMoreTurn(trace, Worker(id), ttl, codes, dispatcher.pacer.interval, turns, i, Now(), dispatcher.postponeDelay,
                    dispatcher.retryDelay);
        trace := trace + [Now()];
      }
      assert turns[..|turns|] == turns;
    }
  }

  // Ids are fresh, and an active task is the newest of its key.
  ghost predicate SoundKeys(db: Db) {
    FreshIds(db) && ActiveIsNewest(db)
  }

  lemma TurnOutlastsTime(x: Db, y: Db, now: Time, lock: Locker, codes: Option<set<string>>, completed: nat)
    requires TurnDone(x, y, lock, codes, completed)
    ensures TurnDone(x, y.(now := now), lock, codes, completed)
  {
    forall id: TaskId | Fenced(y.(now := now), id, Some(lock)) ensures Fenced(x, id, Some(lock)) {
      assert Fenced(y, id, Some(lock));
    }
    assert DoneTasks(y.(now := now)) == DoneTasks(y) && Reservations(y.(now := now)) == Reservations(y);
  }

  lemma TimeChangesNoRow(db: Db, now: Time, lock: Locker)
    ensures SoundKeys(db) <==> SoundKeys(db.(now := now))
    ensures HoldsNoMore(db, db.(now := now), lock)
    ensures Reservations(db.(now := now)) == Reservations(db) && DoneTasks(db.(now := now)) == DoneTasks(db)
  {
    assert forall id: TaskId, other: TaskId :: NotOutrun(db, id, other) == NotOutrun(db.(now := now), id, other);
  }
}
