/** The budget without a gate: at threshold 0 an operation of effective rate 0 is charged
    without end, by one worker that follows the protocol. */
module ZeroGate {
  import opened Schema
  import opened QueueTable
  import opened AccountTable
  import opened UsageLog
  import opened System
  import BudgetBound
  import Exclusivity

  /** The case the hourly bound leaves out: a task type with one operation whose effective
      rate is 0, at threshold 0. */
  predicate Ungated(db: Db, tt: TaskType, op: TypeOp) {
    && tt.code in db.types && db.types[tt.code] == tt && tt.enabled && !tt.usesTwoAccounts && tt.ops == [op]
    && op.enabled && op.role.Primary? && EffectiveRph(op) <= 0
    && ThresholdOf(db, tt) == 0
  }

  ghost predicate Quiet(s: System, account: AccountId) {
    && (forall b :: PhaseOf(s, b).Idle?) && s.pending == map[] && FreshIds(s.db) && Pickable(s.db, account)
  }

  function NewWork(code: string): NewTask {
    NewTask(code, None, None, None, None, None, None, None)
  }

  const WORKER: Actor := WorkerActor(0)

  function Enqueued(code: string): seq<Step> {
    [Around(EnqueueCheck(0, NewWork(code), true)), Around(EnqueueInsert(0))]
  }

  function Taken(id: TaskId, account: AccountId): seq<Step> {
    [By(WORKER, ClaimTask(id, 300)), By(WORKER, PickAny(account))]
  }

  function CheckedAndCounted(account: AccountId): seq<Step> {
    [By(WORKER, CheckBudget(account)), By(WORKER, Begin)]
  }

  function ChargedAndDone(op: TypeOp): seq<Step> {
    [By(WORKER, ChargeOp(op)), By(WORKER, Finish(Completing))]
  }

  function GivenBack(account: AccountId): seq<Step> {
    [By(WORKER, GiveBack(account)), By(WORKER, Leave)]
  }

  // One new task from enqueue to completion.
  function Cycle(tt: TaskType, op: TypeOp, id: TaskId, account: AccountId): seq<Step> {
    Enqueued(tt.code) + Taken(id, account) + CheckedAndCounted(account) + ChargedAndDone(op) + GivenBack(account)
  }

  function Cycles(n: nat, tt: TaskType, op: TypeOp, id: TaskId, account: AccountId): seq<Step> {
    if n == 0 then [] else Cycle(tt, op, id, account) + Cycles(n - 1, tt, op, id + 1, account)
  }

  // Configuration, clock and ids stay as they are; use of the operation grows by `more`.
  ghost predicate Grows(s: System, t: System, account: AccountId, op: TypeOp, more: nat) {
    && t.db.types == s.db.types && t.db.thresholdOverride == s.db.thresholdOverride
    && Used(t.db, account, op.opId) == Used(s.db, account, op.opId) + more
  }

  ghost predicate Alone(s: System) {
    forall b :: b != WORKER ==> PhaseOf(s, b).Idle?
  }

  predicate AtWork(s: System, id: TaskId, held: set<AccountId>, closed: bool, grant: Option<Grant>) {
    var p := PhaseOf(s, WORKER);
    && p.Working? && p.task == id && p.held == held && p.closed == closed && p.grant == grant
  }

  lemma {:induction false} EnqueueStep(s: System, tt: TaskType, op: TypeOp, account: AccountId)
    requires Ungated(s.db, tt, op) && Quiet(s, account)
    ensures var t := Exec(s, Enqueued(tt.code));
      && Grows(s, t, account, op, 0) && Quiet(t, account) && t.db.nextTask == s.db.nextTask + 1
      && Ready(t.db, s.db.nextTask, None) && t.db.tasks[s.db.nextTask].typeCode == tt.code
  {
    var steps := Enqueued(tt.code);
    Exclusivity.TwoSteps(s, steps[0], steps[1]);
    var s1 := Apply(s, steps[0]);
    assert s1 == s.(pending := map[0 := NewWork(tt.code)]);
    var s2 := Apply(s1, steps[1]);
    assert s2.pending == map[];
    assert s2.db == Insert(s.db, NewWork(tt.code));
    forall b ensures PhaseOf(s2, b).Idle? {
      assert PhaseOf(s, b).Idle?;
    }
  }

  lemma {:induction false} TakeStep(s: System, tt: TaskType, op: TypeOp, id: TaskId, account: AccountId)
    requires Quiet(s, account) && Ready(s.db, id, None) && s.db.tasks[id].typeCode == tt.code
    ensures var t := Exec(s, Taken(id, account));
      && Grows(s, t, account, op, 0) && t.db.nextTask == s.db.nextTask && Reserved(t, tt, id, account)
  {
    var steps := Taken(id, account);
    Exclusivity.TwoSteps(s, steps[0], steps[1]);
    var s1 := Apply(s, steps[0]);
    assert PhaseOf(s, WORKER).Idle?;
    assert PhaseOf(s1, WORKER).held == {} && Pickable(s1.db, account);
    OthersWait(s, WORKER, steps[0].act);
    OthersWait(s1, WORKER, steps[1].act);
  }

  lemma {:induction false} OthersWait(s: System, w: Actor, act: Act)
    requires w == WORKER && Alone(s)
    ensures Alone(ApplyAct(s, w, act))
  {
    forall b | b != w ensures PhaseOf(ApplyAct(s, w, act), b).Idle? {
      OthersKeepPhase(s, b, w, act);
      assert PhaseOf(s, b).Idle?;
    }
  }

  // The worker has reserved the account for the task and not counted an attempt yet.
  ghost predicate Reserved(s: System, tt: TaskType, id: TaskId, account: AccountId) {
    && Alone(s) && s.pending == map[] && FreshIds(s.db) && Owns(s, WORKER)
    && AtWork(s, id, {account}, false, None) && !PhaseOf(s, WORKER).begun
    && s.db.tasks[id].typeCode == tt.code && OnlyLocked(s.db, account, id)
  }

  predicate OnlyLocked(db: Db, account: AccountId, id: TaskId) {
    account in db.accounts && db.accounts[account].currentTask == Some(id) && Healthy(db.accounts[account], db.now)
  }

  // The check looks at one operation, and lets it through at any use.
  lemma UngatedPasses(db: Db, tt: TaskType, op: TypeOp, account: AccountId)
    requires Ungated(db, tt, op) && account in db.accounts
    ensures CheckAccount(db, account, tt, Primary).CheckOk? && (set o | o in OpsFor(tt.ops, Primary)) == {op}
  {
    CheckPassesIff(db, account, tt, Primary);
    BudgetBound.NoGateAtZero(db, account, op);
    assert op in tt.ops;
  }

  lemma {:induction false} CheckStep(s: System, tt: TaskType, op: TypeOp, id: TaskId, account: AccountId)
    requires Ungated(s.db, tt, op) && Reserved(s, tt, id, account)
    ensures var t := Exec(s, CheckedAndCounted(account));
      && Grows(s, t, account, op, 0) && Alone(t) && t.pending == map[] && FreshIds(t.db) && Owns(t, WORKER)
      && t.db.nextTask == s.db.nextTask
      && AtWork(t, id, {account}, false, Some(Grant(account, {op}))) && OnlyLocked(t.db, account, id)
  {
    var steps := CheckedAndCounted(account);
    Exclusivity.TwoSteps(s, steps[0], steps[1]);
    var s1 := Apply(s, steps[0]);
    UngatedPasses(s.db, tt, op, account);
    assert PhaseOf(s1, WORKER).grant == Some(Grant(account, {op})) && s1.db == s.db;
    OthersWait(s, WORKER, steps[0].act);
    OthersWait(s1, WORKER, steps[1].act);
  }

  lemma {:induction false} ChargeOnce(s: System, op: TypeOp, id: TaskId, account: AccountId)
    requires Alone(s) && s.pending == map[] && FreshIds(s.db) && Owns(s, WORKER)
    requires AtWork(s, id, {account}, false, Some(Grant(account, {op}))) && OnlyLocked(s.db, account, id)
    ensures var t := Apply(s, By(WORKER, ChargeOp(op)));
      && Grows(s, t, account, op, op.units) && Alone(t) && t.pending == map[] && FreshIds(t.db)
      && t.db.nextTask == s.db.nextTask
      && AtWork(t, id, {account}, false, Some(Grant(account, {}))) && OnlyLocked(t.db, account, id)
  {
    ChargeAdds(s.db, account, op, id, account, op.opId);
    assert {op} - {op} == {};
    OthersWait(s, WORKER, ChargeOp(op));
  }

  lemma {:induction false} CloseOnce(s: System, op: TypeOp, id: TaskId, account: AccountId, grant: Grant)
    requires Alone(s) && s.pending == map[] && FreshIds(s.db)
    requires AtWork(s, id, {account}, false, Some(grant)) && OnlyLocked(s.db, account, id)
    ensures var t := Apply(s, By(WORKER, Finish(Completing)));
      && Grows(s, t, account, op, 0) && Alone(t) && t.pending == map[] && FreshIds(t.db)
      && t.db.nextTask == s.db.nextTask
      && AtWork(t, id, {account}, true, Some(grant)) && OnlyLocked(t.db, account, id)
  {
    OthersWait(s, WORKER, Finish(Completing));
  }

  lemma {:induction false} ChargeStep(s: System, op: TypeOp, id: TaskId, account: AccountId)
    requires Alone(s) && s.pending == map[] && FreshIds(s.db) && Owns(s, WORKER)
    requires AtWork(s, id, {account}, false, Some(Grant(account, {op}))) && OnlyLocked(s.db, account, id)
    ensures var t := Exec(s, ChargedAndDone(op));
      && Grows(s, t, account, op, op.units) && Alone(t) && t.pending == map[] && FreshIds(t.db)
      && t.db.nextTask == s.db.nextTask
      && AtWork(t, id, {account}, true, Some(Grant(account, {}))) && OnlyLocked(t.db, account, id)
  {
    Exclusivity.TwoSteps(s, By(WORKER, ChargeOp(op)), By(WORKER, Finish(Completing)));
    ChargeOnce(s, op, id, account);
    CloseOnce(Apply(s, By(WORKER, ChargeOp(op))), op, id, account, Grant(account, {}));
  }

  lemma {:induction false} ReturnStep(s: System, op: TypeOp, id: TaskId, account: AccountId)
    requires Alone(s) && s.pending == map[] && FreshIds(s.db)
    requires AtWork(s, id, {account}, true, Some(Grant(account, {}))) && OnlyLocked(s.db, account, id)
    ensures var t := Exec(s, GivenBack(account));
      Grows(s, t, account, op, 0) && Quiet(t, account) && t.db.nextTask == s.db.nextTask
  {
    var steps := GivenBack(account);
    Exclusivity.TwoSteps(s, steps[0], steps[1]);
    var s1 := Apply(s, steps[0]);
    OthersWait(s, WORKER, steps[0].act);
    OthersWait(s1, WORKER, steps[1].act);
    var t := Apply(s1, steps[1]);
    forall b ensures PhaseOf(t, b).Idle? {
      if b != WORKER { assert PhaseOf(s1, b).Idle? && PhaseOf(t, b).Idle?; }
    }
  }

  lemma {:induction false} OneCycle(s: System, tt: TaskType, op: TypeOp, account: AccountId)
    requires Ungated(s.db, tt, op) && Quiet(s, account)
    ensures var t := Exec(s, Cycle(tt, op, s.db.nextTask, account));
      && Grows(s, t, account, op, op.units) && Quiet(t, account) && t.db.nextTask == s.db.nextTask + 1
  {
    var id := s.db.nextTask;
    var one, two, three := Enqueued(tt.code), Taken(id, account), CheckedAndCounted(account);
    var four, five := ChargedAndDone(op), GivenBack(account);
    ExecConcat(s, one + two + three + four, five);
    ExecConcat(s, one + two + three, four);
    ExecConcat(s, one + two, three);
    ExecConcat(s, one, two);
    EnqueueStep(s, tt, op, account);
    var s1 := Exec(s, one);
    TakeStep(s1, tt, op, id, account);
    var s2 := Exec(s1, two);
    CheckStep(s2, tt, op, id, account);
    var s3 := Exec(s2, three);
    ChargeStep(s3, op, id, account);
    ReturnStep(Exec(s3, four), op, id, account);
  }

  lemma {:induction false} CyclesCharge(s: System, n: nat, tt: TaskType, op: TypeOp, account: AccountId)
    requires Ungated(s.db, tt, op) && Quiet(s, account)
    ensures Grows(s, Exec(s, Cycles(n, tt, op, s.db.nextTask, account)), account, op, n * op.units)
    decreases n
  {
    if n > 0 {
      var id := s.db.nextTask;
      OneCycle(s, tt, op, account);
      ExecConcat(s, Cycle(tt, op, id, account), Cycles(n - 1, tt, op, id + 1, account));
      CyclesCharge(Exec(s, Cycle(tt, op, id, account)), n - 1, tt, op, account);
      assert n * op.units == op.units + (n - 1) * op.units;
    }
  }

  // ----- such a run strips nobody and charges nothing unchecked -----

  predicate Orderly(step: Step) {
    match step
    case By(a, act) => a == WORKER && !act.ChargeUnchecked?
    case Around(event) => event.EnqueueCheck? || event.EnqueueInsert?
  }

  predicate AllOrderly(steps: seq<Step>) {
    forall step :: step in steps ==> Orderly(step)
  }

  lemma {:induction false} OrderlyIsKept(s: System, steps: seq<Step>)
    requires Alone(s) && AllOrderly(steps)
    ensures BudgetBound.KeptRun(s, steps)
    decreases |steps|
  {
    if steps != [] {
      assert Orderly(steps[0]);
      forall b, account | BudgetBound.Uses(s, b, account) ensures b == WORKER {
        assert b != WORKER ==> PhaseOf(s, b).Idle?;
      }
      match steps[0] {
        case By(a, act) => OthersWait(s, a, act);
        case Around(event) =>
          forall b | b != WORKER ensures PhaseOf(Apply(s, steps[0]), b).Idle? {
            EventsDoNotMove(s, event, b);
            assert PhaseOf(s, b).Idle?;
          }
      }
      OrderlyIsKept(Apply(s, steps[0]), steps[1..]);
    }
  }

  lemma {:induction false} CyclesAreOrderly(n: nat, tt: TaskType, op: TypeOp, id: TaskId, account: AccountId)
    ensures AllOrderly(Cycles(n, tt, op, id, account))
    decreases n
  {
    if n > 0 {
      CyclesAreOrderly(n - 1, tt, op, id + 1, account);
      assert AllOrderly(Cycle(tt, op, id, account));
    }
  }

  lemma AtLeastOneEach(n: nat, units: nat)
    requires units > 0
    ensures n * units >= n
  {
    assert n * units == n + n * (units - 1);
  }

  lemma MoreThan(bound: real) returns (n: nat)
    ensures n as real > bound
  {
    n := if bound >= 0.0 then bound.Floor + 1 else 1;
  }

  lemma UseOfCycles(used: nat, n: nat, units: nat, bound: real)
    requires units > 0 && used == n * units && n as real > bound
    ensures used as real > bound
  {
    AtLeastOneEach(n, units);
  }

  /** Without a gate there is no bound: from an empty queue, by dispatches that keep their
      reservations and charge only what a passed check allowed, use in one hour exceeds any
      limit and unit whatsoever. */
  lemma NoBoundWithoutGate(s: System, tt: TaskType, op: TypeOp, account: AccountId, limit: real, unit: nat)
    returns (steps: seq<Step>)
    requires Start(s) && Ungated(s.db, tt, op) && Pickable(s.db, account) && op.units > 0
    ensures BudgetBound.KeptRun(s, steps)
    ensures var after := Exec(s, steps).db;
      Units(RowsSince(after.usage, account, op.opId, after.now - 3600)) as real > limit + unit as real
  {
    var n := MoreThan(limit + unit as real);
    steps := Cycles(n, tt, op, s.db.nextTask, account);
    CyclesCharge(s, n, tt, op, account);
    CyclesAreOrderly(n, tt, op, s.db.nextTask, account);
    OrderlyIsKept(s, steps);
    var after := Exec(s, steps).db;
    UnitsOfHour(after.usage, account, op.opId, after.now);
    UseOfCycles(Used(after, account, op.opId), n, op.units, limit + unit as real);
  }
}
