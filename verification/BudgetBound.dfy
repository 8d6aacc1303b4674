/** The hourly budget over whole runs: because the check and the charges it allows happen
    inside one reservation, no account exceeds an operation's share by more than one
    execution. */
module BudgetBound {
  import opened Schema
  import opened QueueTable
  import opened UsageLog
  import opened System

  // ----- reservations kept until the dispatch closes -----

  // The executor holds the account and may still check it or charge it.
  predicate Uses(s: System, a: Actor, account: AccountId) {
    Busy(s, a) && account in PhaseOf(s, a).held && !DoneCharging(PhaseOf(s, a), account)
  }

  predicate DoneCharging(p: Phase, account: AccountId)
    requires p.Working?
  {
    p.grant.Some? && p.grant.value.account == account && p.grant.value.due == {}
  }

  predicate ReservedFor(s: System, account: AccountId, id: TaskId) {
    account in s.db.accounts && s.db.accounts[account].currentTask == Some(id)
  }

  predicate Safe(s: System, a: Actor, account: AccountId) {
    Uses(s, a, account) ==> ReservedFor(s, account, PhaseOf(s, a).task)
  }

  predicate TaskOpen(s: System, id: TaskId) {
    id in s.db.tasks && s.db.tasks[id].status.InProgress?
  }

  ghost predicate AtWork(s: System, account: AccountId) {
    exists b :: Uses(s, b, account)
  }

  /** The steps that take an account from an executor still at work on it. */
  ghost predicate Strips(s: System, step: Step) {
    match step
    case By(c, GiveBack(account)) =>
      PhaseOf(s, c).Working? && account in PhaseOf(s, c).held
      && exists b :: b != c && Uses(s, b, account) && PhaseOf(s, b).task == PhaseOf(s, c).task
    case Around(SweepOrphans) => exists b, account :: Uses(s, b, account) && !TaskOpen(s, PhaseOf(s, b).task)
    case Around(WatchdogMark(batch, _)) =>
      (forall id :: id in batch ==> TimedOutTask(s.db, id))
      && exists b, account :: Uses(s, b, account) && PhaseOf(s, b).task in batch
    case Around(BanAccount(account)) => AtWork(s, account)
    case Around(BreakAccount(account)) =>
      account in s.db.accounts && !s.db.accounts[account].status.Banned? && AtWork(s, account)
    case _ => false
  }

  // Two executors at work never use the same account.
  predicate Apart(s: System, a: Actor, b: Actor, account: AccountId) {
    a != b && Uses(s, a, account) ==> !Uses(s, b, account)
  }

  ghost predicate Separate(s: System) {
    && (forall a, account :: Safe(s, a, account))
    && (forall a, b, account :: Apart(s, a, b, account))
  }

  lemma {:induction false} ActStaysSafe(s: System, c: Actor, act: Act, a: Actor, account: AccountId)
    requires Safe(s, a, account) && !Strips(s, By(c, act))
    ensures Safe(ApplyAct(s, c, act), a, account)
  {
    if a == c {
      OwnActStaysSafe(s, a, act, account);
    } else {
      OthersKeepPhase(s, a, c, act);
      OthersStaySafe(s, c, act, a, account);
    }
  }

  lemma {:induction false} OwnActStaysSafe(s: System, a: Actor, act: Act, account: AccountId)
    requires Safe(s, a, account)
    ensures Safe(ApplyAct(s, a, act), a, account)
  {
  }

  lemma {:induction false} OthersStaySafe(s: System, c: Actor, act: Act, a: Actor, account: AccountId)
    requires Safe(s, a, account) && !Strips(s, By(c, act)) && a != c && PhaseOf(ApplyAct(s, c, act), a) == PhaseOf(s, a)
    ensures Safe(ApplyAct(s, c, act), a, account)
  {
  }

  lemma {:induction false} EventStaysSafe(s: System, event: Event, a: Actor, account: AccountId)
    requires Safe(s, a, account) && !Strips(s, Around(event))
    ensures Safe(ApplyEvent(s, event), a, account)
  {
    if Uses(s, a, account) {
      assert AtWork(s, account);
    }
  }

  lemma {:induction false} ActStaysApart(s: System, c: Actor, act: Act, a: Actor, b: Actor, account: AccountId)
    requires Safe(s, a, account) && Safe(s, b, account) && Apart(s, a, b, account)
    ensures Apart(ApplyAct(s, c, act), a, b, account)
  {
    if a != b {
      if a != c { OthersKeepPhase(s, a, c, act); }
      if b != c { OthersKeepPhase(s, b, c, act); }
      if a == c { OwnActStaysApart(s, a, act, b, account); }
      if b == c { OwnActStaysApart(s, b, act, a, account); }
    }
  }

  // An account in use is not free, so it cannot be taken a second time.
  lemma {:induction false} OwnActStaysApart(s: System, a: Actor, act: Act, b: Actor, account: AccountId)
    requires Safe(s, b, account) && Apart(s, a, b, account) && a != b
    requires PhaseOf(ApplyAct(s, a, act), b) == PhaseOf(s, b)
    ensures Apart(ApplyAct(s, a, act), a, b, account)
  {
  }

  lemma {:induction false} SeparateStep(s: System, step: Step)
    requires Separate(s) && !Strips(s, step)
    ensures Separate(Apply(s, step))
  {
    var t := Apply(s, step);
    forall a, account ensures Safe(t, a, account) {
      assert Safe(s, a, account);
      match step
      case By(c, act) => ActStaysSafe(s, c, act, a, account);
      case Around(event) => EventStaysSafe(s, event, a, account);
    }
    forall a, b, account ensures Apart(t, a, b, account) {
      assert Safe(s, a, account) && Safe(s, b, account) && Apart(s, a, b, account);
      match step
      case By(c, act) => ActStaysApart(s, c, act, a, b, account);
      case Around(event) => EventsDoNotMove(s, event, a); EventsDoNotMove(s, event, b);
    }
  }

  lemma {:induction false} StrippingBreaks(s: System, step: Step)
    requires Separate(s) && Strips(s, step)
    ensures !Separate(Apply(s, step))
  {
    var t := Apply(s, step);
    var b, account := StrippedUser(s, step);
    assert Safe(s, b, account);
    assert !Safe(t, b, account);
  }

  lemma {:induction false} StrippedUser(s: System, step: Step) returns (b: Actor, account: AccountId)
    requires Strips(s, step)
    ensures Uses(s, b, account)
    ensures Safe(s, b, account) ==> !Safe(Apply(s, step), b, account)
  {
    b, account := WorkerActor(0), 0;
    if step.By? {
      account := step.act.account;
      b :| b != step.actor && Uses(s, b, account) && PhaseOf(s, b).task == PhaseOf(s, step.actor).task;
    } else if step.event.SweepOrphans? {
      b, account :| Uses(s, b, account) && !TaskOpen(s, PhaseOf(s, b).task);
    } else if step.event.WatchdogMark? {
      b, account :| Uses(s, b, account) && PhaseOf(s, b).task in step.event.batch;
    } else if step.event.BanAccount? || step.event.BreakAccount? {
      account := step.event.account;
      b :| Uses(s, b, account);
    }
  }

  /** Reservations stay with the executors at work, and apart, exactly while no step strips one. */
  lemma {:induction false} SeparateStepIff(s: System, step: Step)
    requires Separate(s)
    ensures Separate(Apply(s, step)) <==> !Strips(s, step)
  {
    if Strips(s, step) { StrippingBreaks(s, step); } else { SeparateStep(s, step); }
  }

  // ----- the limit an operation has over all task types -----

  predicate Charges(db: Db, code: string, row: TypeOp, op: OpId) {
    code in db.types && row in db.types[code].ops && row.role.Primary? && row.enabled && row.opId == op
  }

  function Threshold(db: Db, code: string): int
    requires code in db.types
  {
    ThresholdOf(db, db.types[code])
  }

  /** Whatever task type charges the operation, its gate keeps use within `limit` and one
      execution charges at most `unit`. At threshold 0 an operation whose effective rate
      rounds down to nothing has no gate at all, so that combination is ruled out. */
  ghost predicate Gated(db: Db, op: OpId, limit: real, unit: nat) {
    && limit >= 0.0
    && forall code, row :: Charges(db, code, row, op) ==>
         && Threshold(db, code) >= 0 && (Threshold(db, code) == 0 ==> EffectiveRph(row) > 0)
         && GateLimit(row, Threshold(db, code)) <= limit && row.units <= unit
  }

  // No two rows of a task type name the same operation for the same role (a unique index).
  ghost predicate DistinctOps(db: Db) {
    forall code, x, y, op :: Charges(db, code, x, op) && Charges(db, code, y, op) ==> x == y
  }

  // The charges an executor may still make are rows of its task's type, for an account it holds.
  predicate GrantInOrder(s: System, a: Actor) {
    var p := PhaseOf(s, a);
    Busy(s, a) && p.grant.Some? ==>
      && p.grant.value.account in p.held
      && TaskTypeKnown(s, a)
      && forall row :: row in p.grant.value.due ==>
           Charges(s.db, s.db.tasks[p.task].typeCode, row, row.opId)
  }

  predicate StillDue(s: System, a: Actor, account: AccountId, op: OpId) {
    var p := PhaseOf(s, a);
    && Busy(s, a) && p.grant.Some? && p.grant.value.account == account
    && exists row :: row in p.grant.value.due && row.opId == op
  }

  // Until it is charged, an operation is as the check found it: within the limit.
  predicate DueWithin(s: System, a: Actor, account: AccountId, op: OpId, limit: real) {
    StillDue(s, a, account, op) ==> Used(s.db, account, op) as real <= limit
  }

  ghost predicate WithinBudget(s: System, account: AccountId, op: OpId, limit: real, unit: nat) {
    && Used(s.db, account, op) as real <= limit + unit as real
    && (forall a :: GrantInOrder(s, a))
    && (forall a :: DueWithin(s, a, account, op, limit))
  }

  predicate CheckedStep(step: Step) {
    !(step.By? && step.act.ChargeUnchecked?)
  }

  lemma {:induction false} GrantStartsInOrder(s: System, c: Actor, checked: AccountId, a: Actor)
    requires GrantInOrder(s, a)
    ensures GrantInOrder(ApplyAct(s, c, CheckBudget(checked)), a)
  {
    if TaskTypeKnown(s, c) {
      assert forall row :: row in OpsFor(TypeOfTask(s, c).ops, Primary) ==>
        Charges(s.db, s.db.tasks[PhaseOf(s, c).task].typeCode, row, row.opId);
    }
  }

  // A task keeps its type.
  predicate SameType(x: Db, y: Db, id: TaskId) {
    id in x.tasks ==> id in y.tasks && y.tasks[id].typeCode == x.tasks[id].typeCode
  }

  lemma {:induction false} ActKeepsType(s: System, c: Actor, act: Act, id: TaskId)
    requires FreshIds(s.db)
    ensures SameType(s.db, ApplyAct(s, c, act).db, id)
  {
    if MovesTask(act) && id == Subject(s, c, act) {
      MoveKeepsType(s, c, act);
    } else {
      OtherTasksStand(s, c, act, id);
    }
  }

  lemma {:induction false} MoveKeepsType(s: System, c: Actor, act: Act)
    requires FreshIds(s.db) && MovesTask(act)
    ensures SameType(s.db, ApplyAct(s, c, act).db, Subject(s, c, act))
  {
  }

  // Apart from a new check, an executor at work only ever loses what its grant covers.
  predicate GrantShrinks(p: Phase, q: Phase) {
    q.Working? && !q.closed && q.grant.Some? ==>
      && p.Working? && !p.closed && p.grant.Some? && q.task == p.task
      && q.grant.value.account == p.grant.value.account && q.grant.value.due <= p.grant.value.due
      && (p.grant.value.account in p.held ==> q.grant.value.account in q.held)
  }

  lemma {:induction false} ActShrinksGrant(s: System, c: Actor, act: Act, a: Actor)
    requires !act.CheckBudget?
    ensures GrantShrinks(PhaseOf(s, a), PhaseOf(ApplyAct(s, c, act), a))
  {
  }

  lemma {:induction false} GrantsStayInOrder(s: System, c: Actor, act: Act, a: Actor)
    requires GrantInOrder(s, a) && FreshIds(s.db) && !act.CheckBudget?
    ensures GrantInOrder(ApplyAct(s, c, act), a)
  {
    ActShrinksGrant(s, c, act, a);
    ActsLeaveConfiguration(s, c, act);
    if PhaseOf(s, a).Working? {
      ActKeepsType(s, c, act, PhaseOf(s, a).task);
    }
    ShrunkGrantInOrder(s, ApplyAct(s, c, act), a);
  }

  lemma ShrunkGrantInOrder(s: System, t: System, a: Actor)
    requires GrantInOrder(s, a) && GrantShrinks(PhaseOf(s, a), PhaseOf(t, a)) && t.db.types == s.db.types
    requires PhaseOf(s, a).Working? ==> SameType(s.db, t.db, PhaseOf(s, a).task)
    ensures GrantInOrder(t, a)
  {
  }

  lemma {:induction false} GrantsOutliveEvents(s: System, event: Event, a: Actor)
    requires GrantInOrder(s, a) && FreshIds(s.db)
    ensures GrantInOrder(ApplyEvent(s, event), a)
  {
    EventsDoNotMove(s, event, a);
    EventsLeaveConfiguration(s, event);
    if PhaseOf(s, a).Working? {
      EventKeepsType(s, event, PhaseOf(s, a).task);
    }
    ShrunkGrantInOrder(s, ApplyEvent(s, event), a);
  }

  lemma {:induction false} EventKeepsType(s: System, event: Event, id: TaskId)
    requires FreshIds(s.db)
    ensures SameType(s.db, ApplyEvent(s, event).db, id)
  {
  }

  // Only a charge moves the log.
  lemma {:induction false} LogMovesByCharges(s: System, c: Actor, act: Act)
    requires !act.ChargeOp? && !act.ChargeUnchecked?
    ensures ApplyAct(s, c, act).db.usage == s.db.usage && ApplyAct(s, c, act).db.now == s.db.now
  {
  }

  lemma {:induction false} EventsLeaveTheLog(s: System, event: Event)
    ensures ApplyEvent(s, event).db.usage == s.db.usage && ApplyEvent(s, event).db.now >= s.db.now
  {
  }

  /** A passed check finds every operation it covers within the limit. */
  lemma {:induction false} CheckFindsRoom(s: System, a: Actor, checked: AccountId, account: AccountId, op: OpId,
                                          limit: real, unit: nat)
    requires Gated(s.db, op, limit, unit) && DueWithin(s, a, account, op, limit)
    ensures DueWithin(ApplyAct(s, a, CheckBudget(checked)), a, account, op, limit)
  {
    var t := ApplyAct(s, a, CheckBudget(checked));
    if t != s && StillDue(t, a, account, op) {
      var tt, code := TypeOfTask(s, a), s.db.tasks[PhaseOf(s, a).task].typeCode;
      var row :| row in PhaseOf(t, a).grant.value.due && row.opId == op;
      CheckPassesIff(s.db, account, tt, Primary);
      assert Charges(s.db, code, row, op);
      PassedGateBoundsUse(s.db, account, row, Threshold(s.db, code));
    }
  }

  lemma {:induction false} ChargeStaysWithin(s: System, c: Actor, charged: TypeOp, account: AccountId, op: OpId,
                                             limit: real, unit: nat)
    requires Gated(s.db, op, limit, unit) && GrantInOrder(s, c) && DueWithin(s, c, account, op, limit)
    requires Used(s.db, account, op) as real <= limit + unit as real
    ensures Used(ApplyAct(s, c, ChargeOp(charged)).db, account, op) as real <= limit + unit as real
  {
    var t, p := ApplyAct(s, c, ChargeOp(charged)), PhaseOf(s, c);
    if Busy(s, c) && p.grant.Some? && charged in p.grant.value.due {
      ChargeAdds(s.db, p.grant.value.account, charged, p.task, account, op);
      if p.grant.value.account == account && charged.opId == op {
        assert StillDue(s, c, account, op);
        assert Charges(s.db, s.db.tasks[p.task].typeCode, charged, op);
      }
    }
  }

  // A charge settles its own operation and touches no other executor's account.
  lemma {:induction false} ChargeKeepsDue(s: System, c: Actor, charged: TypeOp, a: Actor, account: AccountId, op: OpId,
                                          limit: real)
    requires DistinctOps(s.db) && GrantInOrder(s, a) && GrantInOrder(s, c) && DueWithin(s, a, account, op, limit)
    requires Apart(s, a, c, account)
    ensures DueWithin(ApplyAct(s, c, ChargeOp(charged)), a, account, op, limit)
  {
    var t, p := ApplyAct(s, c, ChargeOp(charged)), PhaseOf(s, c);
    if t != s && StillDue(t, a, account, op) {
      ChargeAdds(s.db, p.grant.value.account, charged, p.task, account, op);
      var row :| row in PhaseOf(t, a).grant.value.due && row.opId == op;
      assert StillDue(s, a, account, op);
      if a == c {
        assert Charges(s.db, s.db.tasks[p.task].typeCode, charged, charged.opId);
        assert Charges(s.db, s.db.tasks[p.task].typeCode, row, row.opId);
        assert charged.opId != op;
      } else {
        assert Uses(s, a, account);
      }
    }
  }

  lemma {:induction false} OtherActsKeepDue(s: System, c: Actor, act: Act, a: Actor, account: AccountId, op: OpId,
                                            limit: real)
    requires !act.ChargeOp? && !act.ChargeUnchecked? && (act.CheckBudget? ==> a != c)
    requires DueWithin(s, a, account, op, limit)
    ensures DueWithin(ApplyAct(s, c, act), a, account, op, limit)
  {
    LogMovesByCharges(s, c, act);
  }

  lemma {:induction false} BudgetStep(s: System, step: Step, account: AccountId, op: OpId, limit: real, unit: nat)
    requires WithinBudget(s, account, op, limit, unit) && Separate(s) && FreshIds(s.db)
    requires Gated(s.db, op, limit, unit) && DistinctOps(s.db) && CheckedStep(step)
    ensures WithinBudget(Apply(s, step), account, op, limit, unit)
  {
    var t := Apply(s, step);
    match step {
      case By(c, act) =>
        assert GrantInOrder(s, c) && DueWithin(s, c, account, op, limit);
        if act.ChargeOp? {
          ChargeStaysWithin(s, c, act.op, account, op, limit, unit);
        } else {
          LogMovesByCharges(s, c, act);
        }
        forall a ensures GrantInOrder(t, a) && DueWithin(t, a, account, op, limit) {
          assert GrantInOrder(s, a) && DueWithin(s, a, account, op, limit) && Apart(s, a, c, account);
          if act.CheckBudget? {
            GrantStartsInOrder(s, c, act.account, a);
          } else {
            GrantsStayInOrder(s, c, act, a);
          }
          if act.ChargeOp? {
            ChargeKeepsDue(s, c, act.op, a, account, op, limit);
          } else if act.CheckBudget? && a == c {
            CheckFindsRoom(s, a, act.account, account, op, limit, unit);
          } else {
            OtherActsKeepDue(s, c, act, a, account, op, limit);
          }
        }
      case Around(event) =>
        EventsLeaveTheLog(s, event);
        WindowSlides(s.db.usage, account, op, s.db.now, t.db.now);
        forall a ensures GrantInOrder(t, a) && DueWithin(t, a, account, op, limit) {
          assert GrantInOrder(s, a) && DueWithin(s, a, account, op, limit);
          GrantsOutliveEvents(s, event, a);
          EventsDoNotMove(s, event, a);
        }
    }
  }

  ghost predicate KeptRun(s: System, steps: seq<Step>)
    decreases |steps|
  {
    steps == [] || (!Strips(s, steps[0]) && CheckedStep(steps[0]) && KeptRun(Apply(s, steps[0]), steps[1..]))
  }

  lemma {:induction false} BudgetRun(s: System, steps: seq<Step>, account: AccountId, op: OpId, limit: real, unit: nat)
    requires WithinBudget(s, account, op, limit, unit) && Separate(s) && FreshIds(s.db)
    requires Gated(s.db, op, limit, unit) && DistinctOps(s.db) && KeptRun(s, steps)
    ensures WithinBudget(Exec(s, steps), account, op, limit, unit)
    decreases |steps|
  {
    if steps != [] {
      var t := Apply(s, steps[0]);
      BudgetStep(s, steps[0], account, op, limit, unit);
      SeparateStep(s, steps[0]);
      IdsStayFresh(s, steps[0]);
      match steps[0] {
        case By(a, act) => ActsLeaveConfiguration(s, a, act);
        case Around(event) => EventsLeaveConfiguration(s, event);
      }
      assert forall code, row :: Charges(t.db, code, row, op) == Charges(s.db, code, row, op);
      assert forall code, x, o :: Charges(t.db, code, x, o) == Charges(s.db, code, x, o);
      BudgetRun(t, steps[1..], account, op, limit, unit);
    }
  }

  /** At every instant of every run of single-account dispatches whose reservations are kept,
      the rows an account has gathered for an operation in the last 3600 seconds add up to at
      most the limit of its gates plus one execution. */
  lemma HourlyBudget(s: System, steps: seq<Step>, account: AccountId, op: OpId, limit: real, unit: nat)
    requires Start(s) && Gated(s.db, op, limit, unit) && DistinctOps(s.db) && KeptRun(s, steps)
    ensures var after := Exec(s, steps).db;
      Units(RowsSince(after.usage, account, op, after.now - 3600)) as real <= limit + unit as real
  {
    BudgetRun(s, steps, account, op, limit, unit);
    UnitsOfHour(Exec(s, steps).db.usage, account, op, Exec(s, steps).db.now);
  }

  /** With effective rate zero and threshold zero the gate passes whatever has been used. */
  lemma NoGateAtZero(db: Db, account: AccountId, row: TypeOp)
    requires account in db.accounts && EffectiveRph(row) <= 0
    ensures GatePasses(db, account, row, 0)
  {
  }
}
