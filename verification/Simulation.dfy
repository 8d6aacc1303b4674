/** One executor's statements as runs of the system: from tables and a local phase to tables
    and a local phase, by steps of that executor and the health changes it writes. */
module Simulation {
  import opened Schema
  import opened QueueTable
  import opened AccountTable
  import opened UsageLog
  import opened System
  import opened Repositories
  import opened Reserving
  import opened Pipeline
  import opened Executing
  import opened Interference

  // The executor no longer charges this account, if it has it at all.
  predicate Quiet(p: Phase, account: AccountId) {
    p.Working? ==> p.closed || account !in p.held || BudgetBound.DoneCharging(p, account)
  }

  /** A step of executor `a` in program order, or a health change it writes. A checked step is
      no charge that no budget check covers, and takes no account out of service while `a`
      still charges it. */
  predicate OwnStep(s: System, a: Actor, step: Step, checked: bool) {
    match step
    case By(b, act) => b == a && StepInOrder(s, step) && (checked ==> !act.ChargeUnchecked?)
    case Around(CooldownAccount(_, _)) => true
    case Around(BanAccount(account)) => checked ==> Quiet(PhaseOf(s, a), account)
    case Around(BreakAccount(account)) => checked ==> Quiet(PhaseOf(s, a), account)
    case _ => false
  }

  ghost predicate OwnRun(s: System, a: Actor, steps: seq<Step>, checked: bool)
    decreases |steps|
  {
    steps == [] || (OwnStep(s, a, steps[0], checked) && OwnRun(Apply(s, steps[0]), a, steps[1..], checked))
  }

  ghost predicate Path(s: System, a: Actor, t: System, checked: bool) {
    exists steps :: OwnRun(s, a, steps, checked) && Exec(s, steps) == t
  }

  predicate At(s: System, a: Actor, db: Db, p: Phase) {
    s.db == db && PhaseOf(s, a) == p
  }

  ghost predicate Reaches(s: System, a: Actor, db: Db, p: Phase, checked: bool) {
    exists t :: Path(s, a, t, checked) && At(t, a, db, p)
  }

  /** From every system state with these tables in which `a` is in phase `p`, some run of `a`
      ends with tables `y` and phase `q`. */
  ghost predicate LeadsTo(a: Actor, x: Db, p: Phase, y: Db, q: Phase, checked: bool) {
    forall s: System :: At(s, a, x, p) ==> Reaches(s, a, y, q, checked)
  }

  lemma StepReaches(s: System, a: Actor, step: Step, db: Db, p: Phase, checked: bool)
    requires OwnStep(s, a, step, checked) && At(Apply(s, step), a, db, p)
    ensures Reaches(s, a, db, p, checked)
  {
    OneStepPath(s, a, step, checked);
  }

  lemma Stays(a: Actor, x: Db, p: Phase, checked: bool)
    ensures LeadsTo(a, x, p, x, p, checked)
  {
    forall s: System | At(s, a, x, p) ensures Reaches(s, a, x, p, checked) {
      assert Exec(s, []) == s && OwnRun(s, a, [], checked);
      assert Path(s, a, s, checked);
    }
  }

  lemma {:induction false} OwnRunsJoin(s: System, a: Actor, first: seq<Step>, rest: seq<Step>, checked: bool)
    requires OwnRun(s, a, first, checked) && OwnRun(Exec(s, first), a, rest, checked)
    ensures OwnRun(s, a, first + rest, checked)
    decreases |first|
  {
    if first == [] {
      assert first + rest == rest;
    } else {
      assert (first + rest)[1..] == first[1..] + rest;
      OwnRunsJoin(Apply(s, first[0]), a, first[1..], rest, checked);
    }
  }

  lemma PathsJoin(s: System, a: Actor, t: System, u: System, checked: bool)
    requires Path(s, a, t, checked) && Path(t, a, u, checked)
    ensures Path(s, a, u, checked)
  {
    var first :| OwnRun(s, a, first, checked) && Exec(s, first) == t;
    var rest :| OwnRun(t, a, rest, checked) && Exec(t, rest) == u;
    ExecConcat(s, first, rest);
    OwnRunsJoin(s, a, first, rest, checked);
  }

  lemma Then(a: Actor, x: Db, p: Phase, y: Db, q: Phase, z: Db, r: Phase, checked: bool)
    requires LeadsTo(a, x, p, y, q, checked) && LeadsTo(a, y, q, z, r, checked)
    ensures LeadsTo(a, x, p, z, r, checked)
  {
    forall s: System | At(s, a, x, p) ensures Reaches(s, a, z, r, checked) {
      var t :| Path(s, a, t, checked) && At(t, a, y, q);
      assert Reaches(t, a, z, r, checked);
      var u :| Path(t, a, u, checked) && At(u, a, z, r);
      PathsJoin(s, a, t, u, checked);
    }
  }

  lemma Weaken(a: Actor, x: Db, p: Phase, y: Db, q: Phase, checked: bool)
    requires LeadsTo(a, x, p, y, q, true)
    ensures LeadsTo(a, x, p, y, q, checked)
  {
    forall s: System | At(s, a, x, p) ensures Reaches(s, a, y, q, checked) {
      assert Reaches(s, a, y, q, true);
      var t :| Path(s, a, t, true) && At(t, a, y, q);
      PathWeakens(s, a, t, checked);
    }
  }

  lemma PathWeakens(s: System, a: Actor, t: System, checked: bool)
    requires Path(s, a, t, true)
    ensures Path(s, a, t, checked)
  {
    var steps :| OwnRun(s, a, steps, true) && Exec(s, steps) == t;
    OwnRunWeakens(s, a, steps, checked);
  }

  lemma {:induction false} OwnRunWeakens(s: System, a: Actor, steps: seq<Step>, checked: bool)
    requires OwnRun(s, a, steps, true)
    ensures OwnRun(s, a, steps, checked)
    decreases |steps|
  {
    if steps != [] {
      OwnRunWeakens(Apply(s, steps[0]), a, steps[1..], checked);
    }
  }

  /** Every run of an executor out of its dispatch leaves it in program order, so its acts, with
      anything of others between them, are what balance under interference is about. */
  lemma {:induction false} OwnRunLeavesInOrder(s: System, a: Actor, steps: seq<Step>, checked: bool) returns (n: nat)
    requires OwnRun(s, a, steps, checked) && PhaseOf(s, a).Working? && PhaseOf(Exec(s, steps), a).Idle?
    ensures n < |steps| && steps[n] == By(a, Leave) && StaysIn(a, steps[..n])
    ensures StepInOrder(Exec(s, steps[..n]), By(a, Leave))
    decreases |steps|
  {
    if steps[0] == By(a, Leave) {
      n := 0;
    } else {
      StaysInDispatch(s, steps[0], a, PhaseOf(s, a).task, PhaseOf(s, a).claim);
      var rest := OwnRunLeavesInOrder(Apply(s, steps[0]), a, steps[1..], checked);
      n := rest + 1;
      assert steps[..n][1..] == steps[1..][..rest];
      forall i | 0 <= i < n ensures steps[..n][i] != By(a, Leave) {
        assert i > 0 ==> steps[..n][i] == steps[1..][..rest][i - 1];
      }
    }
  }

  // ----- single statements -----

  /** The tables and the phase after one act of an executor in phase `p`, where the act does
      not look at other executors. */
  function ActDb(x: Db, p: Phase, lock: Locker, act: Act): Db
    requires p.Working?
  {
    match act
    case ReserveOne(account) => Reserve(x, account, p.task)
    case ReserveTwo(source, target) => ReservePair(x, source, target, p.task)
    case PickAny(account) => if account in x.accounts then TakePicked(x, account, p.task) else x
    case GiveBack(account) => Release(x, account, p.task)
    case ChargeUnchecked(account, op) => Charge(x, account, op, p.task)
    case RecordAttempt(account, number) => InsertAttempt(x, p.task, account, number)
    case CloseAttempt(attempt, result) => FinishAttempt(x, attempt, result)
    case Assign(chosen) => AssignAccount(x, p.task, chosen, Some(lock))
    case CommitStep(code) => SetLastCompletedStep(x, p.task, code, Some(lock))
    case Begin => BeginAttempt(x, p.task, Some(lock))
    case Finish(how) => FinishTask(x, p.task, how, Some(lock))
    case _ => x
  }

  // Nothing more is charged in this dispatch.
  function Stopped(p: Phase): (q: Phase)
    requires p.Working?
    ensures q.Working? && q.held == p.held && q.task == p.task && q.closed == p.closed
  {
    if p.grant.Some? then p.(grant := Some(p.grant.value.(due := {}))) else p
  }

  function Ended(p: Phase): (q: Phase)
    requires p.Working?
    ensures q.Working? && q.held == p.held && q.task == p.task && q.closed
  {
    var q := Stopped(p);
    q.(closed := true)
  }

  function ActPhase(p: Phase, act: Act): Phase
    requires p.Working?
  {
    match act
    case ReserveOne(account) => p.(held := p.held + {account})
    case ReserveTwo(source, target) => p.(held := p.held + {source, target})
    case PickAny(account) => p.(held := p.held + {account})
    case GiveBack(account) =>
      p.(held := p.held - {account},
         grant := GrantWithout(p, account))
    case StopCharging => Stopped(p)
    case Begin => p.(begun := true)
    case Finish(_) => p.(closed := true)
    case Leave => Idle
    case _ => p
  }

  /** When the act does something in the system. */
  predicate Enabled(x: Db, p: Phase, lock: Locker, act: Act) {
    p.Working?
    && match act
       case GiveBack(account) => account in p.held
       case Leave => true
       case StopCharging => p.grant.Some?
       case ReserveOne(account) => !p.closed && CanReserve(x, account)
       case ReserveTwo(source, target) => !p.closed && CanReservePair(x, source, target)
       case PickAny(account) => !p.closed && Pickable(x, account)
       case ChargeUnchecked(account, _) => !p.closed && account in p.held
       case Begin => !p.closed && !p.begun && Fenced(x, p.task, Some(lock))
       case RecordAttempt(_, _) => !p.closed
       case CloseAttempt(_, _) => !p.closed
       case Assign(_) => !p.closed
       case CommitStep(_) => !p.closed
       case Finish(_) => !p.closed
       case _ => false
  }

  lemma {:induction false} ActLeads(a: Actor, x: Db, p: Phase, act: Act, checked: bool)
    requires Enabled(x, p, LockOf(a), act) && InProgramOrder(x, p, a, act) && (checked ==> !act.ChargeUnchecked?)
    ensures LeadsTo(a, x, p, ActDb(x, p, LockOf(a), act), ActPhase(p, act), checked)
  {
    forall s: System | At(s, a, x, p) ensures Reaches(s, a, ActDb(x, p, LockOf(a), act), ActPhase(p, act), checked) {
      ActArrives(s, a, x, p, act);
      StepReaches(s, a, By(a, act), ActDb(x, p, LockOf(a), act), ActPhase(p, act), checked);
    }
  }

  lemma {:induction false} ActArrives(s: System, a: Actor, x: Db, p: Phase, act: Act)
    requires At(s, a, x, p) && Enabled(x, p, LockOf(a), act)
    ensures At(ApplyAct(s, a, act), a, ActDb(x, p, LockOf(a), act), ActPhase(p, act))
  {
  }

  // ----- the budget check, its charges, and health -----

  function DueOps(tt: TaskType): set<TypeOp> {
    set op | op in OpsFor(tt.ops, Primary)
  }

  lemma {:induction false} CheckLeads(a: Actor, x: Db, p: Phase, account: AccountId, tt: TaskType)
    requires p.Working? && !p.closed && !p.begun && account in p.held && p.grant.None?
    requires HasBudget(x, account, tt) && !tt.usesTwoAccounts
    requires p.task in x.tasks && x.tasks[p.task].typeCode in x.types && x.types[x.tasks[p.task].typeCode] == tt
    ensures LeadsTo(a, x, p, x, p.(grant := Some(Grant(account, DueOps(tt)))), true)
  {
    var q := p.(grant := Some(Grant(account, DueOps(tt))));
    forall s: System | At(s, a, x, p) ensures Reaches(s, a, x, q, true) {
      StepReaches(s, a, By(a, CheckBudget(account)), x, q, true);
    }
  }

  // Past the counted attempt, which a lease does without.
  predicate MayCharge(a: Actor, p: Phase) {
    p.Working? && !p.closed && (p.begun || a.LeaseActor?)
  }

  function Charged(p: Phase, op: TypeOp): Phase
    requires p.Working? && p.grant.Some?
  {
    p.(grant := Some(p.grant.value.(due := p.grant.value.due - {op})))
  }

  lemma {:induction false} ChargeLeads(a: Actor, x: Db, p: Phase, op: TypeOp)
    requires MayCharge(a, p) && p.grant.Some? && op in p.grant.value.due
    ensures LeadsTo(a, x, p, Charge(x, p.grant.value.account, op, p.task), Charged(p, op), true)
  {
    var y := Charge(x, p.grant.value.account, op, p.task);
    forall s: System | At(s, a, x, p) ensures Reaches(s, a, y, Charged(p, op), true) {
      StepReaches(s, a, By(a, ChargeOp(op)), y, Charged(p, op), true);
    }
  }

  lemma {:induction false} HealthLeads(a: Actor, x: Db, p: Phase, account: AccountId, e: Raised, checked: bool)
    requires checked ==> Quiet(p, account) || SyncHealth(x, account, e) == x
    ensures LeadsTo(a, x, p, SyncHealth(x, account, e), p, checked)
  {
    var y := SyncHealth(x, account, e);
    if y == x {
      Stays(a, x, p, checked);
    } else {
      var event := if y == SetBanned(x, account) then BanAccount(account)
        else if y == SetAccountError(x, account) then BreakAccount(account)
        else CooldownAccount(account, x.now + e.retryAfter.value);
      forall s: System | At(s, a, x, p) ensures Reaches(s, a, y, p, checked) {
        StepReaches(s, a, Around(event), y, p, checked);
      }
    }
  }

  // ----- reservations -----

  predicate Fresh(p: Phase) {
    p.Working? && p.held == {} && !p.closed && !p.begun && p.grant.None?
  }

  /** A worker that has just claimed the task. */
  predicate Dispatches(a: Actor, p: Phase, task: ClaimedTask) {
    a.WorkerActor? && Fresh(p) && p.task == task.id && LockOf(a) == task.lock
  }

  lemma TryLeads(a: Actor, x: Db, p: Phase, account: AccountId)
    requires Fresh(p) && Pickable(x, account)
    ensures LeadsTo(a, x, p, Release(TakePicked(x, account, p.task), account, p.task), p, true)
  {
    var y, q := TakePicked(x, account, p.task), p.(held := p.held + {account});
    ActLeads(a, x, p, PickAny(account), true);
    ActLeads(a, y, q, GiveBack(account), true);
    assert ActPhase(q, GiveBack(account)) == p;
    Then(a, x, p, y, q, Release(y, account, p.task), p, true);
  }

  /** Trying any pickable accounts and giving them back is a run. */
  lemma {:induction false} TriedLeads(a: Actor, x: Db, p: Phase, tried: set<AccountId>)
    requires Fresh(p) && tried <= PickableAccounts(x)
    ensures LeadsTo(a, x, p, Tried(x, tried), p, true)
    decreases tried
  {
    if tried == {} {
      assert Tried(x, tried).accounts == x.accounts;
      Stays(a, x, p, true);
    } else {
      var account :| account in tried;
      var rest := tried - {account};
      TriedLeads(a, x, p, rest);
      TriedKeepsPickable(x, rest, account);
      TryLeads(a, Tried(x, rest), p, account);
      TryAndGiveBack(x, rest, account, p.task);
      assert rest + {account} == tried;
      Then(a, x, p, Tried(x, rest), p, Tried(x, tried), p, true);
    }
  }

  lemma AssignLeads(a: Actor, x: Db, p: Phase, does: bool, chosen: Option<AccountId>)
    requires p.Working? && !p.closed
    ensures LeadsTo(a, x, p, if does then AssignAccount(x, p.task, chosen, Some(LockOf(a))) else x, p, true)
  {
    if does {
      ActLeads(a, x, p, Assign(chosen), true);
    } else {
      Stays(a, x, p, true);
    }
  }

  lemma FinishAndLeave(a: Actor, x: Db, p: Phase, how: Finisher)
    requires p.Working? && !p.closed && p.held == {} && EndsInOrder(x, p, a, how)
    ensures LeadsTo(a, x, p, FinishTask(x, p.task, how, Some(LockOf(a))), Idle, true)
  {
    var y, q := FinishTask(x, p.task, how, Some(LockOf(a))), p.(closed := true);
    ActLeads(a, x, p, Finish(how), true);
    ActLeads(a, y, q, Leave, true);
    Then(a, x, p, y, q, y, Idle, true);
  }

  lemma RefusalLeads(a: Actor, x: Db, p: Phase, task: ClaimedTask, tt: TaskType, d: Decision)
    requires Dispatches(a, p, task) && d.RefusedFor?
    ensures LeadsTo(a, x, p, Refuse(x, task, tt, d), Idle, true)
  {
    var loose := if d.unassign then AssignAccount(x, task.id, None, Some(task.lock)) else x;
    AssignLeads(a, x, p, d.unassign, None);
    FinishAndLeave(a, loose, p, Postponing(d.delay, Some(d.reason)));
    Then(a, x, p, loose, p, Refuse(x, task, tt, d), Idle, true);
  }

  // ----- execution -----

  predicate NoRepeats(ops: seq<TypeOp>) {
    forall i, j :: 0 <= i < j < |ops| ==> ops[i] != ops[j]
  }

  /** The grant covers the charges of these operations to the accounts of their roles. */
  predicate Covers(p: Phase, ops: seq<TypeOp>, byRole: map<Role, AccountId>) {
    && p.Working? && p.grant.Some? && byRole == map[Primary := p.grant.value.account] && NoRepeats(ops)
    && forall op :: op in ops && op.enabled && op.role.Primary? ==> op in p.grant.value.due
  }

  // What charging leaves of the phase.
  predicate OnlyGrantChanged(p: Phase, q: Phase) {
    && p.Working? && q.Working? && q == p.(grant := q.grant)
    && (p.grant.Some? <==> q.grant.Some?)
    && (p.grant.Some? ==> q.grant.value.account == p.grant.value.account)
  }

  lemma OneChargeLeads(a: Actor, x: Db, p: Phase, account: AccountId, op: TypeOp, checked: bool) returns (q: Phase)
    requires MayCharge(a, p) && account in p.held
    requires checked ==> p.grant.Some? && p.grant.value.account == account && op in p.grant.value.due
    ensures OnlyGrantChanged(p, q) && LeadsTo(a, x, p, Charge(x, account, op, p.task), q, checked)
    ensures checked ==> q == Charged(p, op)
  {
    if checked {
      ChargeLeads(a, x, p, op);
      q := Charged(p, op);
    } else {
      ActLeads(a, x, p, ChargeUnchecked(account, op), false);
      q := p;
    }
  }

  lemma {:induction false} ChargesLead(a: Actor, x: Db, p: Phase, ops: seq<TypeOp>, byRole: map<Role, AccountId>,
                                       checked: bool)
    returns (q: Phase)
    requires MayCharge(a, p) && (forall role :: role in byRole ==> byRole[role] in p.held)
    requires checked ==> Covers(p, ops, byRole)
    ensures OnlyGrantChanged(p, q) && LeadsTo(a, x, p, ChargeAll(x, ops, byRole, p.task), q, checked)
    decreases |ops|
  {
    if ops == [] || (ops[0].enabled && ops[0].role !in byRole) {
      Stays(a, x, p, checked);
      q := p;
    } else if !ops[0].enabled {
      q := ChargesLead(a, x, p, ops[1..], byRole, checked);
    } else {
      var account := byRole[ops[0].role];
      var once := OneChargeLeads(a, x, p, account, ops[0], checked);
      assert checked ==> Covers(once, ops[1..], byRole);
      q := ChargesLead(a, Charge(x, account, ops[0], p.task), once, ops[1..], byRole, checked);
      Then(a, x, p, Charge(x, account, ops[0], p.task), once, ChargeAll(x, ops, byRole, p.task), q, checked);
    }
  }

  predicate CoversSteps(p: Phase, steps: seq<TypeOp>, from: nat, account: AccountId) {
    && p.Working? && p.grant.Some? && p.grant.value.account == account && NoRepeats(steps)
    && forall i :: from <= i < |steps| ==> steps[i] in p.grant.value.due
  }

  /** Charging and committing the first k steps, one after the other, is a run. */
  lemma {:induction false} StepsLead(a: Actor, x: Db, p: Phase, steps: seq<TypeOp>, k: nat, account: AccountId,
                                     checked: bool)
    returns (q: Phase)
    requires MayCharge(a, p) && p.begun && account in p.held && k <= |steps|
    requires checked ==> CoversSteps(p, steps, 0, account)
    ensures OnlyGrantChanged(p, q) && (checked ==> CoversSteps(q, steps, k, account))
    ensures LeadsTo(a, x, p, RunTables(x, steps, k, k, account, p.task, Some(LockOf(a))), q, checked)
  {
    if k == 0 {
      assert RunTables(x, steps, 0, 0, account, p.task, Some(LockOf(a))) == x;
      Stays(a, x, p, checked);
      q := p;
    } else {
      var before := StepsLead(a, x, p, steps, k - 1, account, checked);
      var here := RunTables(x, steps, k - 1, k - 1, account, p.task, Some(LockOf(a)));
      q := OneStepLeads(a, x, here, before, steps, k - 1, account, checked);
      Then(a, x, p, here, before, RunTables(x, steps, k, k, account, p.task, Some(LockOf(a))), q, checked);
    }
  }

  lemma OneStepLeads(a: Actor, x: Db, here: Db, p: Phase, steps: seq<TypeOp>, k: nat, account: AccountId, checked: bool)
    returns (q: Phase)
    requires MayCharge(a, p) && p.begun && account in p.held && k < |steps|
    requires here == RunTables(x, steps, k, k, account, p.task, Some(LockOf(a)))
    requires checked ==> CoversSteps(p, steps, k, account)
    ensures OnlyGrantChanged(p, q) && (checked ==> CoversSteps(q, steps, k + 1, account))
    ensures LeadsTo(a, here, p, RunTables(x, steps, k + 1, k + 1, account, p.task, Some(LockOf(a))), q, checked)
  {
    var lock := Some(LockOf(a));
    var paid := RunTables(x, steps, k, k + 1, account, p.task, lock);
    q := OneChargeLeads(a, here, p, account, steps[k], checked);
    ChargeOneMore(x, steps, k, account, p.task, lock);
    CommitOneMore(x, steps, k, k + 1, account, p.task, lock);
    ActLeads(a, paid, q, CommitStep(steps[k].opCode), checked);
    Then(a, here, p, paid, q, RunTables(x, steps, k + 1, k + 1, account, p.task, lock), q, checked);
  }

  /** A pipeline run, ended by a failure before or after a charge or not at all, is a run of
      the system. */
  lemma PipelineLeads(a: Actor, x: Db, p: Phase, steps: seq<TypeOp>, k: nat, paid: nat, account: AccountId,
                      checked: bool)
    returns (q: Phase)
    requires MayCharge(a, p) && p.begun && account in p.held && k <= paid <= |steps| && paid <= k + 1
    requires checked ==> CoversSteps(p, steps, 0, account)
    ensures OnlyGrantChanged(p, q)
    ensures LeadsTo(a, x, p, RunTables(x, steps, k, paid, account, p.task, Some(LockOf(a))), q, checked)
  {
    var lock := Some(LockOf(a));
    q := StepsLead(a, x, p, steps, k, account, checked);
    if paid == k + 1 {
      var here, before := RunTables(x, steps, k, k, account, p.task, lock), q;
      q := OneChargeLeads(a, here, before, account, steps[k], checked);
      ChargeOneMore(x, steps, k, account, p.task, lock);
      Then(a, x, p, here, before, RunTables(x, steps, k, paid, account, p.task, lock), q, checked);
    }
  }

  /** A type whose charges the budget check covers: one account, no operation listed twice,
      and, for the types that meter themselves, no operation of another role. */
  predicate Checkable(tt: TaskType) {
    && !tt.usesTwoAccounts && NoRepeats(tt.ops)
    && (IsMultiOp(tt.code) ==> forall op :: op in tt.ops && op.enabled ==> op.role.Primary?)
  }

  lemma StepsAreCovered(tt: TaskType, last: Option<string>, p: Phase, account: AccountId)
    requires p.Working? && p.grant == Some(Grant(account, DueOps(tt))) && Checkable(tt) && IsMultiOp(tt.code)
    ensures CoversSteps(p, StepsLeft(tt, last), 0, account)
  {
    var all := PipelineOf(tt);
    TypePipelineIsSound(tt);
    StepsAreConfigured(Catalog(tt.code), tt.ops);
    SuffixOf(all, last, StepsLeft(tt, last));
    forall i | 0 <= i < |StepsLeft(tt, last)| ensures StepsLeft(tt, last)[i] in DueOps(tt) {
      assert StepsLeft(tt, last)[i] in all;
    }
  }

  lemma SuffixOf(all: seq<TypeOp>, last: Option<string>, rest: seq<TypeOp>)
    requires rest == Remaining(all, last) && DistinctCodes(all)
    ensures NoRepeats(rest) && forall op :: op in rest ==> op in all
  {
    var from := |all| - |rest|;
    assert rest == all[from..];
    forall i, j | 0 <= i < j < |rest| ensures rest[i] != rest[j] {
      assert rest[i] == all[from + i] && rest[j] == all[from + j];
    }
  }

  /** The phase and roles under which an execution is covered by its check. */
  predicate UnderCheck(p: Phase, tt: TaskType, exec: AccountId, byRole: map<Role, AccountId>) {
    p.Working? && p.grant == Some(Grant(exec, DueOps(tt))) && Checkable(tt) && byRole == map[Primary := exec]
  }

  predicate Holding(p: Phase, exec: AccountId, byRole: map<Role, AccountId>) {
    p.Working? && !p.closed && exec in p.held && forall role :: role in byRole ==> byRole[role] in p.held
  }

  lemma ExecutedLeads(a: Actor, x: Db, p: Phase, y: Db, task: ClaimedTask, tt: TaskType, exec: AccountId,
                      byRole: map<Role, AccountId>, script: Script, raised: Option<Raised>, checked: bool)
    returns (q: Phase)
    requires Executed(x, y, task, tt, exec, byRole, script, raised)
    requires Holding(p, exec, byRole) && p.begun && p.task == task.id && LockOf(a) == task.lock
    requires checked ==> UnderCheck(p, tt, exec, byRole)
    ensures OnlyGrantChanged(p, q) && LeadsTo(a, x, p, y, q, checked)
  {
    if script.validation.Some? {
      Stays(a, x, p, checked);
      q := p;
    } else if IsMultiOp(tt.code) {
      var steps := StepsLeft(tt, task.lastStep);
      if checked {
        StepsAreCovered(tt, task.lastStep, p, exec);
      }
      var run := RunOf(steps, script);
      q := PipelineLeads(a, x, p, steps, CommittedBy(|steps|, run), ChargedBy(|steps|, run), exec, checked);
    } else {
      q := ChargesLead(a, x, p, tt.ops, byRole, checked);
    }
  }

  // Naming the account, counting the attempt and recording it, in this order.
  lemma BegunBySteps(x: Db, task: ClaimedTask, tt: TaskType, exec: AccountId)
    requires Fenced(x, task.id, Some(task.lock))
    ensures var auto := task.accountId.None? && !tt.usesTwoAccounts;
      var named := if auto then AssignAccount(x, task.id, Some(exec), Some(task.lock)) else x;
      var counted := BeginAttempt(named, task.id, Some(task.lock));
      && Fenced(named, task.id, Some(task.lock)) && task.id in counted.tasks
      && Begun(x, task, tt, exec) == InsertAttempt(counted, task.id, exec, counted.tasks[task.id].attemptCount)
  {
  }

  lemma BeginLeads(a: Actor, x: Db, p: Phase, task: ClaimedTask, tt: TaskType, exec: AccountId)
    requires Fenced(x, task.id, Some(task.lock)) && p.Working? && !p.closed && !p.begun && p.held != {}
    requires p.task == task.id && LockOf(a) == task.lock
    ensures LeadsTo(a, x, p, Begun(x, task, tt, exec), p.(begun := true), true)
  {
    var auto := task.accountId.None? && !tt.usesTwoAccounts;
    var named := if auto then AssignAccount(x, task.id, Some(exec), Some(task.lock)) else x;
    BegunBySteps(x, task, tt, exec);
    AssignLeads(a, x, p, auto, Some(exec));
    CountLeads(a, named, p, exec);
    Then(a, x, p, named, p, Begun(x, task, tt, exec), p.(begun := true), true);
  }

  lemma CountLeads(a: Actor, x: Db, p: Phase, exec: AccountId)
    requires p.Working? && !p.closed && !p.begun && p.held != {} && Fenced(x, p.task, Some(LockOf(a)))
    ensures var counted := BeginAttempt(x, p.task, Some(LockOf(a)));
      && p.task in counted.tasks
      && LeadsTo(a, x, p, InsertAttempt(counted, p.task, exec, counted.tasks[p.task].attemptCount), p.(begun := true),
                 true)
  {
    var counted, q := BeginAttempt(x, p.task, Some(LockOf(a))), p.(begun := true);
    ActLeads(a, x, p, Begin, true);
    var number := counted.tasks[p.task].attemptCount;
    ActLeads(a, counted, q, RecordAttempt(exec, number), true);
    Then(a, x, p, counted, q, InsertAttempt(counted, p.task, exec, number), q, true);
  }

  // ----- closing and leaving -----

  lemma NoteLeads(a: Actor, x: Db, p: Phase, attempt: Option<nat>, status: AttemptStatus)
    requires p.Working? && !p.closed && (attempt.Some? ==> p.begun)
    ensures LeadsTo(a, x, p, Noted(x, attempt, status), p, true) && Noted(x, attempt, status).tasks == x.tasks
    ensures Noted(x, attempt, status).types == x.types
  {
    if attempt.Some? {
      ActLeads(a, x, p, CloseAttempt(attempt.value, status), true);
    } else {
      Stays(a, x, p, true);
    }
  }

  lemma FinishLeads(a: Actor, x: Db, p: Phase, how: Finisher)
    requires p.Working? && !p.closed && EndsInOrder(x, p, a, how)
    ensures LeadsTo(a, x, p, FinishTask(x, p.task, how, Some(LockOf(a))), p.(closed := true), true)
  {
    ActLeads(a, x, p, Finish(how), true);
  }

  lemma EndingReadsQueueOnly(x: Db, y: Db, p: Phase, a: Actor, how: Finisher)
    requires p.Working? && y.tasks == x.tasks && y.types == x.types && EndsInOrder(x, p, a, how)
    ensures EndsInOrder(y, p, a, how)
  {
  }

  lemma CloseLeads(a: Actor, x: Db, p: Phase, task: ClaimedTask, attempt: Option<nat>, status: AttemptStatus,
                   how: Finisher)
    requires p.Working? && !p.closed && p.task == task.id && LockOf(a) == task.lock
    requires EndsInOrder(x, p, a, how) && (attempt.Some? ==> p.begun)
    ensures LeadsTo(a, x, p, FinishTask(Noted(x, attempt, status), task.id, how, Some(task.lock)), p.(closed := true),
                    true)
  {
    var noted := Noted(x, attempt, status);
    NoteLeads(a, x, p, attempt, status);
    EndingReadsQueueOnly(x, noted, p, a, how);
    FinishLeads(a, noted, p, how);
    Then(a, x, p, noted, p, FinishTask(noted, p.task, how, Some(LockOf(a))), p.(closed := true), true);
  }

  lemma SuccessLeads(a: Actor, x: Db, p: Phase, task: ClaimedTask, attempt: nat)
    requires p.Working? && !p.closed && p.begun && p.task == task.id && LockOf(a) == task.lock && a.WorkerActor?
    ensures LeadsTo(a, x, p, CompletedTables(x, task, attempt), p.(closed := true), true)
  {
    CloseLeads(a, x, p, task, Some(attempt), Success, Completing);
    assert CompletedTables(x, task, attempt)
        == FinishTask(Noted(x, Some(attempt), Success), task.id, Completing, Some(task.lock));
  }

  lemma StopLeads(a: Actor, x: Db, p: Phase)
    requires p.Working?
    ensures LeadsTo(a, x, p, x, Stopped(p), true)
  {
    if p.grant.Some? {
      ActLeads(a, x, p, StopCharging, true);
    } else {
      Stays(a, x, p, true);
    }
  }

  /** The executor has stopped charging before it writes a ban or an error to its account. */
  lemma HandledLeads(a: Actor, x: Db, p: Phase, y: Db, task: ClaimedTask, frees: bool, how: Finisher, exec: AccountId,
                     attempt: Option<nat>, e: Raised, result: DispatchResult, checked: bool)
    requires Handled(x, y, task, frees, how, exec, attempt, e, result)
    requires p.Working? && !p.closed && p.task == task.id && LockOf(a) == task.lock && a.WorkerActor?
    requires p.begun || (attempt.None? && !Fenced(x, task.id, Some(task.lock)))
    requires checked ==> (p.grant.Some? && p.grant.value.account == exec) || SyncHealth(x, exec, e) == x
    ensures LeadsTo(a, x, p, y, Ended(p), checked)
  {
    var healthy, q := SyncHealth(x, exec, e), Stopped(p);
    StopLeads(a, x, p);
    Weaken(a, x, p, x, q, checked);
    HealthLeads(a, x, q, exec, e, checked);
    Then(a, x, p, x, q, healthy, q, checked);
    var loose := Unassigned(healthy, task, frees);
    AssignLeads(a, healthy, q, frees, None);
    CloseLeads(a, loose, q, task, attempt, AttemptOutcome(e), how);
    HandledIs(x, y, task, frees, how, exec, attempt, e, result);
    Then(a, healthy, q, loose, q, y, Ended(p), true);
    Weaken(a, healthy, q, y, Ended(p), checked);
    Then(a, x, p, healthy, q, y, Ended(p), checked);
  }

  // The statements of the error path in the order they are issued.
  lemma HandledIs(x: Db, y: Db, task: ClaimedTask, frees: bool, how: Finisher, exec: AccountId, attempt: Option<nat>,
                  e: Raised, result: DispatchResult)
    requires Handled(x, y, task, frees, how, exec, attempt, e, result)
    ensures var loose := Unassigned(SyncHealth(x, exec, e), task, frees);
      y == FinishTask(Noted(loose, attempt, AttemptOutcome(e)), task.id, how, Some(task.lock))
  {
    var healthy := SyncHealth(x, exec, e);
    HealthIsAccountsOnly(x, exec, e);
    UnassigningIsApart(x, healthy, task, frees);
    var noted := Noted(Unassigned(healthy, task, frees), attempt, AttemptOutcome(e));
    FinishReadsQueueOnly(Unassigned(x, task, frees), noted, task.id, how, Some(task.lock));
  }

  lemma UnassigningIsApart(x: Db, z: Db, task: ClaimedTask, frees: bool)
    requires z == x.(accounts := z.accounts)
    ensures Unassigned(z, task, frees) == Unassigned(x, task, frees).(accounts := z.accounts)
  {
  }

  lemma HealthIsAccountsOnly(x: Db, exec: AccountId, e: Raised)
    ensures SyncHealth(x, exec, e) == x.(accounts := SyncHealth(x, exec, e).accounts)
  {
  }

  lemma FinishReadsQueueOnly(x: Db, z: Db, id: TaskId, how: Finisher, lock: Option<Locker>)
    requires z == x.(accounts := z.accounts, attempts := z.attempts)
    ensures FinishTask(z, id, how, lock) == z.(tasks := FinishTask(x, id, how, lock).tasks)
  {
  }

  lemma {:induction false} ReleaseLeads(a: Actor, x: Db, p: Phase, ids: seq<AccountId>) returns (q: Phase)
    requires p.Working? && p.closed && p.held == set id | id in ids
    requires forall i, j :: 0 <= i < j < |ids| ==> ids[i] != ids[j]
    ensures q.Working? && q.closed && q.held == {} && LeadsTo(a, x, p, ReleaseEach(x, ids, p.task), q, true)
    decreases |ids|
  {
    if ids == [] {
      Stays(a, x, p, true);
      q := p;
    } else {
      var once, next := Release(x, ids[0], p.task), ActPhase(p, GiveBack(ids[0]));
      ActLeads(a, x, p, GiveBack(ids[0]), true);
      assert next.held == set id | id in ids[1..];
      q := ReleaseLeads(a, once, next, ids[1..]);
      Then(a, x, p, once, next, ReleaseEach(x, ids, p.task), q, true);
    }
  }

  lemma ReleaseAndLeave(a: Actor, x: Db, p: Phase, ids: seq<AccountId>)
    requires p.Working? && p.closed && p.held == set id | id in ids
    requires forall i, j :: 0 <= i < j < |ids| ==> ids[i] != ids[j]
    ensures LeadsTo(a, x, p, ReleaseEach(x, ids, p.task), Idle, true)
  {
    var q := ReleaseLeads(a, x, p, ids);
    ActLeads(a, ReleaseEach(x, ids, p.task), q, Leave, true);
    Then(a, x, p, ReleaseEach(x, ids, p.task), q, ReleaseEach(x, ids, p.task), Idle, true);
  }

  // ----- a reserved dispatch, and a whole one -----

  /** A phase from which the reserved task can be run; `checked` asks for the budget check's
      grant, which a claim that is gone does not need. */
  predicate ReadyToRun(x: Db, a: Actor, p: Phase, checked: bool, task: ClaimedTask, tt: TaskType, exec: AccountId,
                       byRole: map<Role, AccountId>, ids: seq<AccountId>) {
    && Holding(p, exec, byRole) && !p.begun && p.task == task.id && LockOf(a) == task.lock
    && a.WorkerActor? && p.held == set id | id in ids
    && (checked && Fenced(x, task.id, Some(task.lock)) ==> UnderCheck(p, tt, exec, byRole))
  }

  ghost predicate RunsOut(x: Db, y: Db, task: ClaimedTask, tt: TaskType, exec: AccountId, byRole: map<Role, AccountId>,
                          ids: seq<AccountId>) {
    forall a: Actor, p: Phase, checked: bool ::
      ReadyToRun(x, a, p, checked, task, tt, exec, byRole, ids) ==> LeadsTo(a, x, p, y, Idle, checked)
  }

  lemma CloseAndRelease(a: Actor, x: Db, p: Phase, y: Db, q: Phase, ids: seq<AccountId>, checked: bool)
    requires p.Working? && q.Working? && q.task == p.task && q.closed && LeadsTo(a, x, p, y, q, checked)
    requires q.held == (set id | id in ids) && forall i, j :: 0 <= i < j < |ids| ==> ids[i] != ids[j]
    ensures LeadsTo(a, x, p, ReleaseEach(y, ids, p.task), Idle, checked)
  {
    ReleaseAndLeave(a, y, q, ids);
    Weaken(a, y, q, ReleaseEach(y, ids, p.task), Idle, checked);
    Then(a, x, p, y, q, ReleaseEach(y, ids, p.task), Idle, checked);
  }

  lemma LostRun(x: Db, y: Db, task: ClaimedTask, tt: TaskType, frees: bool, how: Finisher, exec: AccountId,
                byRole: map<Role, AccountId>, ids: seq<AccountId>, result: DispatchResult)
    requires Handled(x, y, task, frees, how, exec, None, UNEXPECTED, result) && !Fenced(x, task.id, Some(task.lock))
    requires forall i, j :: 0 <= i < j < |ids| ==> ids[i] != ids[j]
    ensures RunsOut(x, ReleaseEach(y, ids, task.id), task, tt, exec, byRole, ids)
  {
    forall a: Actor, p: Phase, checked: bool | ReadyToRun(x, a, p, checked, task, tt, exec, byRole, ids)
      ensures LeadsTo(a, x, p, ReleaseEach(y, ids, task.id), Idle, checked)
    {
      HandledLeads(a, x, p, y, task, frees, how, exec, None, UNEXPECTED, result, checked);
      CloseAndRelease(a, x, p, y, Ended(p), ids, checked);
    }
  }

  lemma BeginAndExecute(a: Actor, x: Db, p: Phase, executed: Db, task: ClaimedTask, tt: TaskType, exec: AccountId,
                        byRole: map<Role, AccountId>, ids: seq<AccountId>, script: Script, raised: Option<Raised>,
                        checked: bool)
    returns (q: Phase)
    requires ReadyToRun(x, a, p, checked, task, tt, exec, byRole, ids) && Fenced(x, task.id, Some(task.lock))
    requires Executed(Begun(x, task, tt, exec), executed, task, tt, exec, byRole, script, raised)
    ensures q.Working? && q.task == p.task && q.held == p.held && q.begun && !q.closed
    ensures LeadsTo(a, x, p, executed, q, checked)
    ensures checked ==> q.grant.Some? && q.grant.value.account == exec
  {
    var begun := Begun(x, task, tt, exec);
    BeginLeads(a, x, p, task, tt, exec);
    Weaken(a, x, p, begun, p.(begun := true), checked);
    q := ExecutedLeads(a, begun, p.(begun := true), executed, task, tt, exec, byRole, script, raised, checked);
    Then(a, x, p, begun, p.(begun := true), executed, q, checked);
  }

  lemma ErrorRun(x: Db, executed: Db, y: Db, task: ClaimedTask, tt: TaskType, frees: bool, how: Finisher,
                 exec: AccountId, byRole: map<Role, AccountId>, ids: seq<AccountId>, script: Script, e: Raised,
                 attempt: Option<nat>, result: DispatchResult)
    requires Fenced(x, task.id, Some(task.lock)) && forall i, j :: 0 <= i < j < |ids| ==> ids[i] != ids[j]
    requires Executed(Begun(x, task, tt, exec), executed, task, tt, exec, byRole, script, Some(e))
    requires Handled(executed, y, task, frees, how, exec, attempt, e, result)
    ensures RunsOut(x, ReleaseEach(y, ids, task.id), task, tt, exec, byRole, ids)
  {
    forall a: Actor, p: Phase, checked: bool | ReadyToRun(x, a, p, checked, task, tt, exec, byRole, ids)
      ensures LeadsTo(a, x, p, ReleaseEach(y, ids, task.id), Idle, checked)
    {
      var q := BeginAndExecute(a, x, p, executed, task, tt, exec, byRole, ids, script, Some(e), checked);
      HandledLeads(a, executed, q, y, task, frees, how, exec, attempt, e, result, checked);
      Then(a, x, p, executed, q, y, Ended(q), checked);
      CloseAndRelease(a, x, p, y, Ended(q), ids, checked);
    }
  }

  // Execution, closing and release, one after the other.
  lemma ConcludeRun(a: Actor, x: Db, p: Phase, z: Db, q: Phase, y: Db, ids: seq<AccountId>, checked: bool)
    requires p.Working? && q.Working? && q.task == p.task && LeadsTo(a, x, p, z, q, checked)
    requires LeadsTo(a, z, q, y, q.(closed := true), true)
    requires q.held == (set id | id in ids) && forall i, j :: 0 <= i < j < |ids| ==> ids[i] != ids[j]
    ensures LeadsTo(a, x, p, ReleaseEach(y, ids, p.task), Idle, checked)
  {
    Weaken(a, z, q, y, q.(closed := true), checked);
    Then(a, x, p, z, q, y, q.(closed := true), checked);
    CloseAndRelease(a, x, p, y, q.(closed := true), ids, checked);
  }

  lemma SuccessRun(x: Db, executed: Db, y: Db, task: ClaimedTask, tt: TaskType, exec: AccountId,
                   byRole: map<Role, AccountId>, ids: seq<AccountId>, script: Script, attempt: nat)
    requires Fenced(x, task.id, Some(task.lock)) && forall i, j :: 0 <= i < j < |ids| ==> ids[i] != ids[j]
    requires Executed(Begun(x, task, tt, exec), executed, task, tt, exec, byRole, script, None)
    requires y == CompletedTables(executed, task, attempt)
    ensures RunsOut(x, ReleaseEach(y, ids, task.id), task, tt, exec, byRole, ids)
  {
    forall a: Actor, p: Phase, checked: bool | ReadyToRun(x, a, p, checked, task, tt, exec, byRole, ids)
      ensures LeadsTo(a, x, p, ReleaseEach(y, ids, task.id), Idle, checked)
    {
      var q := BeginAndExecute(a, x, p, executed, task, tt, exec, byRole, ids, script, None, checked);
      SuccessLeads(a, executed, q, task, attempt);
      ConcludeRun(a, x, p, executed, q, y, ids, checked);
    }
  }

  predicate ChecksCover(x: Db, task: ClaimedTask) {
    TypeEnabled(x, task.typeCode) ==> Checkable(x.types[task.typeCode])
  }

  /** A whole dispatch is a run of the executor that claimed the task, from its fresh phase to
      idle; and if the type is checkable, a run without unchecked charges. */
  ghost predicate DispatchIsARun(x: Db, y: Db, task: ClaimedTask) {
    forall a: Actor, p: Phase ::
      Dispatches(a, p, task) ==> LeadsTo(a, x, p, y, Idle, ChecksCover(x, task))
  }

  // The claimed row is of the type the executor read.
  predicate TypeAsRead(x: Db, task: ClaimedTask) {
    Fenced(x, task.id, Some(task.lock)) ==> x.tasks[task.id].typeCode == task.typeCode
  }

  // A run, checked or not as the type allows.
  lemma AsARun(a: Actor, x: Db, p: Phase, y: Db, task: ClaimedTask)
    requires LeadsTo(a, x, p, y, Idle, true)
    ensures LeadsTo(a, x, p, y, Idle, ChecksCover(x, task))
  {
    Weaken(a, x, p, y, Idle, ChecksCover(x, task));
  }

  lemma UnknownTypeIsARun(x: Db, task: ClaimedTask, how: Finisher)
    requires how.Rescheduling? && !TypeEnabled(x, task.typeCode) && TypeAsRead(x, task)
    ensures DispatchIsARun(x, FinishTask(x, task.id, how, Some(task.lock)), task)
  {
    forall a: Actor, p: Phase | Dispatches(a, p, task)
      ensures LeadsTo(a, x, p, FinishTask(x, task.id, how, Some(task.lock)), Idle, ChecksCover(x, task))
    {
      FinishAndLeave(a, x, p, how);
      AsARun(a, x, p, FinishTask(x, task.id, how, Some(task.lock)), task);
    }
  }

  lemma RefusedPairIsARun(x: Db, task: ClaimedTask, tt: TaskType, d: Decision)
    requires d.RefusedFor?
    ensures DispatchIsARun(x, Refuse(x, task, tt, d), task)
  {
    forall a: Actor, p: Phase | Dispatches(a, p, task)
      ensures LeadsTo(a, x, p, Refuse(x, task, tt, d), Idle, ChecksCover(x, task))
    {
      RefusalLeads(a, x, p, task, tt, d);
      AsARun(a, x, p, Refuse(x, task, tt, d), task);
    }
  }

  lemma TouchedLeads(a: Actor, x: Db, p: Phase, account: AccountId)
    requires Fresh(p)
    ensures LeadsTo(a, x, p, Touched(x, account), p, true)
  {
    if CanReserve(x, account) {
      var y, q := Reserve(x, account, p.task), p.(held := p.held + {account});
      ActLeads(a, x, p, ReserveOne(account), true);
      ActLeads(a, y, q, GiveBack(account), true);
      assert ActPhase(q, GiveBack(account)) == p;
      ReserveAndGiveBack(x, account, p.task);
      Then(a, x, p, y, q, Touched(x, account), p, true);
    } else {
      Stays(a, x, p, true);
    }
  }

  lemma RefusedFixedIsARun(x: Db, account: AccountId, task: ClaimedTask, tt: TaskType, d: Decision)
    requires d.RefusedFor?
    ensures DispatchIsARun(x, Refuse(Touched(x, account), task, tt, d), task)
  {
    var y := Refuse(Touched(x, account), task, tt, d);
    forall a: Actor, p: Phase | Dispatches(a, p, task)
      ensures LeadsTo(a, x, p, y, Idle, ChecksCover(x, task))
    {
      TouchedLeads(a, x, p, account);
      RefusalLeads(a, Touched(x, account), p, task, tt, d);
      Then(a, x, p, Touched(x, account), p, y, Idle, true);
      AsARun(a, x, p, y, task);
    }
  }

  lemma RefusedPickIsARun(x: Db, tried: set<AccountId>, task: ClaimedTask, tt: TaskType, d: Decision)
    requires d.RefusedFor? && tried <= PickableAccounts(x)
    ensures DispatchIsARun(x, Refuse(Tried(x, tried), task, tt, d), task)
  {
    var y := Refuse(Tried(x, tried), task, tt, d);
    forall a: Actor, p: Phase | Dispatches(a, p, task)
      ensures LeadsTo(a, x, p, y, Idle, ChecksCover(x, task))
    {
      TriedLeads(a, x, p, tried);
      RefusalLeads(a, Tried(x, tried), p, task, tt, d);
      Then(a, x, p, Tried(x, tried), p, y, Idle, true);
      AsARun(a, x, p, y, task);
    }
  }

  /** From a reserved account with budget, through the check, to the end. */
  lemma CheckedRunLeads(a: Actor, x: Db, p: Phase, y: Db, task: ClaimedTask, tt: TaskType, account: AccountId,
                        checked: bool)
    requires p.Working? && p.held == {account} && !p.closed && !p.begun && p.grant.None?
    requires p.task == task.id && LockOf(a) == task.lock && a.WorkerActor?
    requires task.typeCode in x.types && tt == x.types[task.typeCode] && TypeAsRead(x, task)
    requires HasBudget(x, account, tt) && (checked ==> Checkable(tt))
    requires RunsOut(x, y, task, tt, account, map[Primary := account], [account])
    ensures LeadsTo(a, x, p, y, Idle, checked)
  {
    var byRole := map[Primary := account];
    assert p.held == set id | id in [account];
    if checked && Fenced(x, task.id, Some(task.lock)) {
      var q := p.(grant := Some(Grant(account, DueOps(tt))));
      CheckLeads(a, x, p, account, tt);
      Weaken(a, x, p, x, q, checked);
      assert ReadyToRun(x, a, q, checked, task, tt, account, byRole, [account]);
      Then(a, x, p, x, q, y, Idle, checked);
    } else {
      assert ReadyToRun(x, a, p, checked, task, tt, account, byRole, [account]);
    }
  }

  lemma FixedIsARun(x: Db, y: Db, task: ClaimedTask, tt: TaskType, account: AccountId)
    requires task.typeCode in x.types && tt == x.types[task.typeCode] && TypeEnabled(x, task.typeCode)
    requires TypeAsRead(x, task)
    requires CanReserve(x, account) && HasBudget(x, account, tt)
    requires RunsOut(Reserve(x, account, task.id), y, task, tt, account, map[Primary := account], [account])
    ensures DispatchIsARun(x, y, task)
  {
    var reserved := Reserve(x, account, task.id);
    CheckReadsUsageOnly(x, reserved, account, tt, Primary);
    forall a: Actor, p: Phase | Dispatches(a, p, task)
      ensures LeadsTo(a, x, p, y, Idle, ChecksCover(x, task))
    {
      var checked, q := ChecksCover(x, task), p.(held := p.held + {account});
      ActLeads(a, x, p, ReserveOne(account), checked);
      CheckedRunLeads(a, reserved, q, y, task, tt, account, checked);
      Then(a, x, p, reserved, q, y, Idle, checked);
    }
  }

  lemma PickIsARun(x: Db, y: Db, tried: set<AccountId>, task: ClaimedTask, tt: TaskType, account: AccountId)
    requires task.typeCode in x.types && tt == x.types[task.typeCode] && TypeEnabled(x, task.typeCode)
    requires TypeAsRead(x, task)
    requires tried <= PickableAccounts(x) && Pickable(x, account) && HasBudget(x, account, tt)
    requires RunsOut(TakePicked(Tried(x, tried), account, task.id), y, task, tt, account, map[Primary := account],
                     [account])
    ensures DispatchIsARun(x, y, task)
  {
    var searched := Tried(x, tried);
    var reserved := TakePicked(searched, account, task.id);
    TriedKeepsPickable(x, tried, account);
    CheckReadsUsageOnly(x, reserved, account, tt, Primary);
    forall a: Actor, p: Phase | Dispatches(a, p, task)
      ensures LeadsTo(a, x, p, y, Idle, ChecksCover(x, task))
    {
      var checked, q := ChecksCover(x, task), p.(held := p.held + {account});
      TriedLeads(a, x, p, tried);
      Weaken(a, x, p, searched, p, checked);
      ActLeads(a, searched, p, PickAny(account), checked);
      Then(a, x, p, searched, p, reserved, q, checked);
      CheckedRunLeads(a, reserved, q, y, task, tt, account, checked);
      Then(a, x, p, reserved, q, y, Idle, checked);
    }
  }

  lemma PairIsARun(x: Db, y: Db, task: ClaimedTask, tt: TaskType, source: AccountId, target: AccountId)
    requires TypeEnabled(x, task.typeCode) && tt == x.types[task.typeCode] && tt.usesTwoAccounts
    requires CanReservePair(x, source, target)
    requires RunsOut(ReservePair(x, source, target, task.id), y, task, tt, target,
                     map[Source := source, Target := target], [source, target])
    ensures DispatchIsARun(x, y, task)
  {
    var reserved := ReservePair(x, source, target, task.id);
    forall a: Actor, p: Phase | Dispatches(a, p, task)
      ensures LeadsTo(a, x, p, y, Idle, ChecksCover(x, task))
    {
      var q := p.(held := p.held + {source, target});
      ActLeads(a, x, p, ReserveTwo(source, target), false);
      assert ReadyToRun(reserved, a, q, false, task, tt, target, map[Source := source, Target := target],
                        [source, target]);
      Then(a, x, p, reserved, q, y, Idle, false);
    }
  }

  // ----- from idle -----

  ghost predicate Opens(s: System, a: Actor, act: Act, db: Db, id: TaskId) {
    var t := ApplyAct(s, a, act);
    t.db == db && Fresh(PhaseOf(t, a)) && PhaseOf(t, a).task == id
  }

  /** An act that takes an idle executor into a fresh phase, followed by a run from there. */
  lemma OpeningLeads(a: Actor, x: Db, act: Act, opening: Db, id: TaskId, y: Db, checked: bool)
    requires act.ClaimTask? || act.OpenLease?
    requires forall s: System :: At(s, a, x, Idle) ==> Opens(s, a, act, opening, id)
    requires forall p: Phase :: Fresh(p) && p.task == id ==> LeadsTo(a, opening, p, y, Idle, checked)
    ensures LeadsTo(a, x, Idle, y, Idle, checked)
  {
    forall s: System | At(s, a, x, Idle) ensures Reaches(s, a, y, Idle, checked) {
      var t := Apply(s, By(a, act));
      assert Opens(s, a, act, opening, id);
      OneStepPath(s, a, By(a, act), checked);
      assert LeadsTo(a, opening, PhaseOf(t, a), y, Idle, checked) && At(t, a, opening, PhaseOf(t, a));
      assert Reaches(t, a, y, Idle, checked);
      var u :| Path(t, a, u, checked) && At(u, a, y, Idle);
      PathsJoin(s, a, t, u, checked);
    }
  }

  lemma OneStepPath(s: System, a: Actor, step: Step, checked: bool)
    requires OwnStep(s, a, step, checked)
    ensures Path(s, a, Apply(s, step), checked)
  {
    var steps := [step];
    assert steps[1..] == [];
    assert Exec(s, steps) == Exec(Apply(s, step), []);
    assert OwnRun(s, a, steps, checked);
  }
}
