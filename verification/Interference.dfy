/** Dispatches under interference: an executor issues its statements in the order of the
    program, and between any two of them anything else may happen. */
module Interference {
  import opened Schema
  import opened QueueTable
  import opened System
  import Exclusivity
  import Fencing
  import TaskLife
  import BudgetBound

  // ----- the order of an executor's statements -----

  predicate OfEnabledType(db: Db, id: TaskId) {
    id in db.tasks && TypeEnabled(db, db.tasks[id].typeCode)
  }

  /** How a dispatch may end before its attempt is counted: refused an account, or its task
      of a type that is not enabled. */
  predicate EndsUnbegun(db: Db, p: Phase, how: Finisher)
    requires p.Working?
  {
    p.held == {} && (how.Postponing? || (how.Rescheduling? && !OfEnabledType(db, p.task)))
  }

  /** The final statement: of a worker after the attempt is counted, unless the dispatch is
      refused or the claim is gone; of a lease after it has released the account. */
  predicate EndsInOrder(db: Db, p: Phase, a: Actor, how: Finisher)
    requires p.Working?
  {
    match a
    case WorkerActor(_) => p.begun || !Fenced(db, p.task, Some(LockOf(a))) || EndsUnbegun(db, p, how)
    case LeaseActor(_) => p.held == {} && (how.Completing? || how.Failing?)
  }

  /** Program order, from what the executor knows: reserve one account or pair at a time and
      give it back before the next; count the attempt before anything is recorded, charged or
      committed for it (a lease counts none); give back what was used only after the final
      statement; leave with nothing held. */
  predicate InProgramOrder(db: Db, p: Phase, a: Actor, act: Act) {
    match act
    case ClaimTask(_, _) => p.Idle?
    case OpenLease(_, _, _) => p.Idle?
    case ReserveOne(_) => p.Working? && p.held == {} && !p.begun
    case ReserveTwo(_, _) => p.Working? && p.held == {} && !p.begun
    case PickAny(_) => p.Working? && p.held == {} && !p.begun
    case GiveBack(_) => p.Working? && (p.closed || !p.begun)
    case CheckBudget(_) => p.Working? && !p.begun
    case Begin => p.Working? && p.held != {}
    case ChargeOp(_) => p.Working? && (p.begun || a.LeaseActor?)
    case ChargeUnchecked(_, _) => p.Working? && (p.begun || a.LeaseActor?)
    case CommitStep(_) => p.Working? && p.begun
    case RecordAttempt(_, _) => p.Working? && p.begun
    case CloseAttempt(_, _) => p.Working? && p.begun
    case Finish(how) => p.Working? && !p.closed && EndsInOrder(db, p, a, how)
    case Leave => p.Working? && p.closed && p.held == {}
    case StopCharging => p.Working?
    case Assign(_) => p.Working?
  }

  predicate StepInOrder(s: System, step: Step) {
    step.By? ==> InProgramOrder(s.db, PhaseOf(s, step.actor), step.actor, step.act)
  }

  // ----- what every reachable state keeps about claims -----

  // Every task is of a catalogued type.
  ghost predicate KnownTypes(db: Db) {
    forall id :: id in db.tasks ==> db.tasks[id].typeCode in db.types
  }

  /** An executor's claim is no newer than its task's latest; and if it is the latest and the
      task is in progress, then under this executor's lock. */
  predicate ClaimIsMine(s: System, a: Actor) {
    var p := PhaseOf(s, a);
    p.Working? ==>
      && p.task in s.db.tasks && p.claim <= LedgerOf(s, p.task).claims
      && (s.db.tasks[p.task].status.InProgress? && p.claim == LedgerOf(s, p.task).claims ==> Owns(s, a))
  }

  ghost predicate Reachable(s: System) {
    && FreshIds(s.db) && LeasesOwnTheirTask(s) && KnownTypes(s.db) && Fencing.ClaimsInOrder(s)
    && forall a :: ClaimIsMine(s, a)
  }

  lemma {:induction false} ActKeepsTypesKnown(s: System, a: Actor, act: Act)
    requires KnownTypes(s.db)
    ensures KnownTypes(ApplyAct(s, a, act).db)
  {
    var t := ApplyAct(s, a, act);
    ActsLeaveConfiguration(s, a, act);
    forall id | id in t.db.tasks ensures t.db.tasks[id].typeCode in t.db.types {
      if MovesTask(act) && id == Subject(s, a, act) {
        MovedTypeIsKnown(s, a, act);
      } else {
        OtherTasksStand(s, a, act, id);
      }
    }
  }

  lemma {:induction false} MovedTypeIsKnown(s: System, a: Actor, act: Act)
    requires KnownTypes(s.db) && MovesTask(act)
    ensures var t, id := ApplyAct(s, a, act), Subject(s, a, act);
      id in t.db.tasks ==> t.db.tasks[id].typeCode in s.db.types
  {
  }

  lemma {:induction false} EventKeepsTypesKnown(s: System, event: Event)
    requires KnownTypes(s.db)
    ensures KnownTypes(ApplyEvent(s, event).db)
  {
  }

  lemma StandingKeepsClaimMine(s: System, t: System, a: Actor)
    requires ClaimIsMine(s, a) && PhaseOf(s, a).Working? && SameStanding(s, t, PhaseOf(s, a).task)
    requires var p, q := PhaseOf(s, a), PhaseOf(t, a); q.Working? ==> q.task == p.task && q.claim == p.claim
    ensures ClaimIsMine(t, a)
  {
  }

  lemma {:induction false} OwnActKeepsClaim(s: System, a: Actor, act: Act)
    requires ClaimIsMine(s, a)
    ensures ClaimIsMine(ApplyAct(s, a, act), a)
  {
    if PhaseOf(s, a).Working? && !MovesTask(act) {
      QuietActsStand(s, a, act, PhaseOf(s, a).task);
      QuietActKeepsClaim(s, a, act);
      StandingKeepsClaimMine(s, ApplyAct(s, a, act), a);
    } else {
      MoveKeepsOwnClaim(s, a, act);
    }
  }

  lemma {:induction false} MoveKeepsOwnClaim(s: System, a: Actor, act: Act)
    requires ClaimIsMine(s, a) && (MovesTask(act) || PhaseOf(s, a).Idle?)
    ensures ClaimIsMine(ApplyAct(s, a, act), a)
  {
  }

  lemma {:induction false} OthersKeepClaim(s: System, b: Actor, act: Act, a: Actor)
    requires ClaimIsMine(s, a) && FreshIds(s.db) && a != b
    ensures ClaimIsMine(ApplyAct(s, b, act), a)
  {
    OthersKeepPhase(s, a, b, act);
    if PhaseOf(s, a).Working? {
      if MovesTask(act) && PhaseOf(s, a).task == Subject(s, b, act) {
        MoveKeepsClaimMine(s, b, act, a);
      } else {
        OtherTasksStand(s, b, act, PhaseOf(s, a).task);
        StandingKeepsClaimMine(s, ApplyAct(s, b, act), a);
      }
    }
  }

  lemma {:induction false} MoveKeepsClaimMine(s: System, b: Actor, act: Act, a: Actor)
    requires ClaimIsMine(s, a) && FreshIds(s.db) && a != b && MovesTask(act)
    requires PhaseOf(s, a).Working? && PhaseOf(s, a).task == Subject(s, b, act)
    ensures ClaimIsMine(ApplyAct(s, b, act), a)
  {
  }

  lemma {:induction false} EventKeepsClaimMine(s: System, event: Event, a: Actor)
    requires ClaimIsMine(s, a) && FreshIds(s.db)
    ensures ClaimIsMine(ApplyEvent(s, event), a)
  {
  }

  lemma {:induction false} ReachableStep(s: System, step: Step)
    requires Reachable(s)
    ensures Reachable(Apply(s, step))
  {
    IdsStayFresh(s, step);
    LeasesKeepTheirTask(s, step);
    Fencing.FencedStep(s, step);
    match step {
      case By(b, act) => ActKeepsTypesKnown(s, b, act);
      case Around(event) => EventKeepsTypesKnown(s, event);
    }
    forall a ensures ClaimIsMine(Apply(s, step), a) {
      assert ClaimIsMine(s, a);
      match step
      case By(b, act) => if a == b { OwnActKeepsClaim(s, a, act); } else { OthersKeepClaim(s, b, act, a); }
      case Around(event) => EventKeepsClaimMine(s, event, a);
    }
  }

  lemma {:induction false} ReachableRun(s: System, steps: seq<Step>)
    requires Reachable(s)
    ensures Reachable(Exec(s, steps))
    decreases |steps|
  {
    if steps != [] {
      ReachableStep(s, steps[0]);
      ReachableRun(Apply(s, steps[0]), steps[1..]);
    }
  }

  lemma StartIsReachable(s: System)
    requires Start(s)
    ensures Reachable(s)
  {
    Fencing.StartIsFenced(s);
  }

  // ----- one dispatch among others -----

  predicate StaysIn(a: Actor, steps: seq<Step>) {
    forall i :: 0 <= i < |steps| ==> steps[i] != By(a, Leave)
  }

  // Another executor reserves the account for the task.
  predicate TakesFor(s: System, step: Step, a: Actor, account: AccountId, id: TaskId) {
    step.By? && step.actor != a && Busy(s, step.actor) && PhaseOf(s, step.actor).task == id
    && match step.act
       case ReserveOne(one) => one == account
       case ReserveTwo(source, target) => source == account || target == account
       case PickAny(one) => one == account
       case _ => false
  }

  ghost predicate TakenMeanwhile(s: System, steps: seq<Step>, a: Actor, account: AccountId, id: TaskId)
    decreases |steps|
  {
    steps != [] && (TakesFor(s, steps[0], a, account, id)
                    || TakenMeanwhile(Apply(s, steps[0]), steps[1..], a, account, id))
  }

  // The account carries the task, and not because the executor holds it.
  predicate CarriesBesides(s: System, a: Actor, account: AccountId, id: TaskId) {
    Exclusivity.Reserved(s, account, id) && !Exclusivity.Holds(s, a, account)
  }

  predicate At(s: System, a: Actor, id: TaskId, claim: nat) {
    PhaseOf(s, a).Working? && PhaseOf(s, a).task == id && PhaseOf(s, a).claim == claim
  }

  lemma {:induction false} StaysInDispatch(s: System, step: Step, a: Actor, id: TaskId, claim: nat)
    requires At(s, a, id, claim) && step != By(a, Leave)
    ensures At(Apply(s, step), a, id, claim)
  {
    match step
    case By(b, act) => if a == b { OwnActStays(s, a, act, id, claim); } else { OthersKeepPhase(s, a, b, act); }
    case Around(event) => EventsDoNotMove(s, event, a);
  }

  lemma {:induction false} OwnActStays(s: System, a: Actor, act: Act, id: TaskId, claim: nat)
    requires At(s, a, id, claim) && !act.Leave?
    ensures At(ApplyAct(s, a, act), a, id, claim)
  {
  }

  lemma {:induction false} OwnActReleases(s: System, a: Actor, act: Act, account: AccountId, id: TaskId, claim: nat)
    requires At(s, a, id, claim) && !act.Leave? && !CarriesBesides(s, a, account, id)
    ensures !CarriesBesides(ApplyAct(s, a, act), a, account, id)
  {
  }

  lemma {:induction false} OthersTake(s: System, b: Actor, act: Act, a: Actor, account: AccountId, id: TaskId)
    requires a != b && !CarriesBesides(s, a, account, id) && !TakesFor(s, By(b, act), a, account, id)
    ensures !CarriesBesides(ApplyAct(s, b, act), a, account, id)
  {
  }

  lemma {:induction false} EventsTakeNothing(s: System, event: Event, a: Actor, account: AccountId, id: TaskId)
    requires !CarriesBesides(s, a, account, id)
    ensures !CarriesBesides(ApplyEvent(s, event), a, account, id)
  {
  }

  // The account carries the task at every instant of the run, and the executor never holds it.
  ghost predicate CarriesThroughout(s: System, steps: seq<Step>, a: Actor, account: AccountId, id: TaskId)
    decreases |steps|
  {
    CarriesBesides(s, a, account, id)
    && (steps == [] || CarriesThroughout(Apply(s, steps[0]), steps[1..], a, account, id))
  }

  lemma {:induction false} CarriedMeansTaken(s: System, a: Actor, steps: seq<Step>, account: AccountId, id: TaskId,
                                             claim: nat)
    requires At(s, a, id, claim) && StaysIn(a, steps) && CarriesBesides(Exec(s, steps), a, account, id)
    ensures TakenMeanwhile(s, steps, a, account, id) || CarriesThroughout(s, steps, a, account, id)
    decreases |steps|
  {
    if steps != [] {
      var t := Apply(s, steps[0]);
      StaysInDispatch(s, steps[0], a, id, claim);
      CarriedMeansTaken(t, a, steps[1..], account, id, claim);
      if !CarriesBesides(s, a, account, id) && CarriesBesides(t, a, account, id) {
        AppearsByTaking(s, steps[0], a, account, id, claim);
      }
    }
  }

  lemma {:induction false} AppearsByTaking(s: System, step: Step, a: Actor, account: AccountId, id: TaskId, claim: nat)
    requires At(s, a, id, claim) && step != By(a, Leave)
    requires !CarriesBesides(s, a, account, id) && CarriesBesides(Apply(s, step), a, account, id)
    ensures TakesFor(s, step, a, account, id)
  {
    match step {
      case By(b, act) =>
        if a == b {
          OwnActReleases(s, a, act, account, id, claim);
        } else if !TakesFor(s, step, a, account, id) {
          OthersTake(s, b, act, a, account, id);
        }
      case Around(event) => EventsTakeNothing(s, event, a, account, id);
    }
  }

  // The final statement has gone out, so the claim is not in force.
  predicate ClosedIsLost(s: System, a: Actor) {
    PhaseOf(s, a).Working? && PhaseOf(s, a).closed ==> !Owns(s, a)
  }

  lemma {:induction false} OwnActClosesForGood(s: System, a: Actor, act: Act, id: TaskId, claim: nat)
    requires At(s, a, id, claim) && id in s.db.tasks && ClosedIsLost(s, a) && KnownTypes(s.db) && !act.Leave?
    ensures ClosedIsLost(ApplyAct(s, a, act), a)
  {
    if PhaseOf(s, a).closed {
      Fencing.LostActorIsPowerless(s, a, act);
    } else if act.Finish? {
      FinishLoses(s, a, act.how);
    } else {
      OnlyFinishCloses(s, a, act, id, claim);
    }
  }

  lemma {:induction false} FinishLoses(s: System, a: Actor, how: Finisher)
    requires Busy(s, a) && PhaseOf(s, a).task in s.db.tasks && KnownTypes(s.db)
    ensures !Owns(ApplyAct(s, a, Finish(how)), a)
  {
  }

  lemma {:induction false} OnlyFinishCloses(s: System, a: Actor, act: Act, id: TaskId, claim: nat)
    requires At(s, a, id, claim) && !PhaseOf(s, a).closed && !act.Finish? && !act.Leave?
    ensures PhaseOf(ApplyAct(s, a, act), a).Working? && !PhaseOf(ApplyAct(s, a, act), a).closed
  {
  }

  lemma {:induction false} StepClosesForGood(s: System, step: Step, a: Actor, id: TaskId, claim: nat)
    requires Reachable(s) && At(s, a, id, claim) && ClosedIsLost(s, a) && step != By(a, Leave)
    ensures ClosedIsLost(Apply(s, step), a)
  {
    assert ClaimIsMine(s, a);
    if step.By? && step.actor == a {
      OwnActClosesForGood(s, a, step.act, id, claim);
    } else if PhaseOf(s, a).closed {
      match step
      case By(b, act) => Fencing.OthersDoNotRestore(s, a, b, act);
      case Around(event) => Fencing.EventsDoNotRestore(s, a, event);
    } else {
      match step
      case By(b, act) => OthersKeepPhase(s, a, b, act);
      case Around(event) => EventsDoNotMove(s, event, a);
    }
  }

  /** How the claim was closed, if it was: by the executor's own statement or the watchdog. */
  ghost predicate ClosedByOwner(s: System, a: Actor, id: TaskId, claim: nat) {
    var closings := LedgerOf(s, id).closings;
    1 <= claim <= |closings| ==> closings[claim - 1].cause.ByWatchdog? || closings[claim - 1].cause.actor == a
  }

  lemma {:induction false} FinishClosesOwn(s: System, b: Actor, how: Finisher, a: Actor, id: TaskId, claim: nat)
    requires Reachable(s) && At(s, a, id, claim) && ClosedByOwner(s, a, id, claim)
    ensures ClosedByOwner(ApplyAct(s, b, Finish(how)), a, id, claim)
  {
    assert ClaimIsMine(s, a) && Fencing.CurrentClaim(s, b) && Fencing.ClaimsClosedOnce(s, id);
    if a != b && Owns(s, a) && Owns(s, b) && PhaseOf(s, b).task == id {
      OwnerIsUnique(s, a, b);
    }
  }

  lemma {:induction false} OtherActsCloseNothing(s: System, b: Actor, act: Act, id: TaskId)
    requires !act.Finish?
    ensures LedgerOf(ApplyAct(s, b, act), id).closings == LedgerOf(s, id).closings
  {
  }

  lemma {:induction false} EventClosesOwn(s: System, event: Event, a: Actor, id: TaskId, claim: nat)
    requires ClosedByOwner(s, a, id, claim)
    ensures ClosedByOwner(ApplyEvent(s, event), a, id, claim)
  {
  }

  lemma {:induction false} ClosesOwn(s: System, step: Step, a: Actor, id: TaskId, claim: nat)
    requires Reachable(s) && At(s, a, id, claim) && ClosedByOwner(s, a, id, claim)
    ensures ClosedByOwner(Apply(s, step), a, id, claim)
  {
    match step
    case By(b, act) =>
      if act.Finish? { FinishClosesOwn(s, b, act.how, a, id, claim); } else { OtherActsCloseNothing(s, b, act, id); }
    case Around(event) => EventClosesOwn(s, event, a, id, claim);
  }

  lemma {:induction false} DispatchKeeps(s: System, a: Actor, steps: seq<Step>, id: TaskId, claim: nat)
    requires Reachable(s) && At(s, a, id, claim) && StaysIn(a, steps)
    requires ClosedIsLost(s, a) && ClosedByOwner(s, a, id, claim)
    ensures var t := Exec(s, steps);
      Reachable(t) && At(t, a, id, claim) && ClosedIsLost(t, a) && ClosedByOwner(t, a, id, claim)
    decreases |steps|
  {
    if steps != [] {
      ReachableStep(s, steps[0]);
      StaysInDispatch(s, steps[0], a, id, claim);
      StepClosesForGood(s, steps[0], a, id, claim);
      ClosesOwn(s, steps[0], a, id, claim);
      DispatchKeeps(Apply(s, steps[0]), a, steps[1..], id, claim);
    }
  }

  /** The task is out of the executor's hands, its claim is closed, and by nobody but itself
      or the watchdog. */
  ghost predicate LetGo(s: System, a: Actor, id: TaskId, claim: nat) {
    var closings := LedgerOf(s, id).closings;
    && !Fenced(s.db, id, Some(LockOf(a)))
    && 1 <= claim <= |closings| && closings[claim - 1].claim == claim
    && (closings[claim - 1].cause.ByWatchdog? || closings[claim - 1].cause.actor == a)
  }

  /** A dispatch is balanced whatever goes on around it. An executor has just claimed a task in
      a reachable state; between its statements any others claim, reserve, release, charge,
      close, sweep and time out, in any order. When program order lets it leave, it does not
      own the task; its claim has been closed, once, by itself or by the watchdog; and an
      account that still carries the task was reserved for it meanwhile by another executor,
      or carried it all along without this executor ever holding it. */
  lemma BalancedUnderInterference(s: System, a: Actor, steps: seq<Step>, id: TaskId, claim: nat)
    requires Reachable(s) && At(s, a, id, claim) && Owns(s, a) && Busy(s, a) && PhaseOf(s, a).held == {}
    requires StaysIn(a, steps) && StepInOrder(Exec(s, steps), By(a, Leave))
    ensures LetGo(Exec(s, steps), a, id, claim)
    ensures forall account :: Exclusivity.Reserved(Exec(s, steps), account, id) ==>
      TakenMeanwhile(s, steps, a, account, id) || CarriesThroughout(s, steps, a, account, id)
  {
    var t := Exec(s, steps);
    assert Fencing.ClaimsClosedOnce(s, id) && Fencing.CurrentClaim(s, a);
    DispatchKeeps(s, a, steps, id, claim);
    assert ClaimIsMine(t, a) && Fencing.ClaimsClosedOnce(t, id);
    forall account | Exclusivity.Reserved(t, account, id)
      ensures TakenMeanwhile(s, steps, a, account, id) || CarriesThroughout(s, steps, a, account, id)
    {
      CarriedMeansTaken(s, a, steps, account, id, claim);
    }
  }

  // ----- how often a task of an enabled type is claimed -----

  // Executors may crash, that is leave anywhere, but what they issue they issue in order.
  ghost predicate OrderedRun(s: System, steps: seq<Step>)
    decreases |steps|
  {
    steps == []
    || ((StepInOrder(s, steps[0]) || (steps[0].By? && steps[0].act.Leave?))
        && OrderedRun(Apply(s, steps[0]), steps[1..]))
  }

  // No claim of a task of an enabled type was handed back by a reschedule without an attempt.
  predicate AllCounted(s: System, id: TaskId) {
    OfEnabledType(s.db, id) ==> LedgerOf(s, id).uncounted == 0
  }

  lemma {:induction false} OrderedFinishCounts(s: System, step: Step, id: TaskId)
    requires StepInOrder(s, step) && OfEnabledType(s.db, id)
    requires step.By? ==> TaskLife.BegunIsCounted(s, step.actor)
    ensures !TaskLife.FreeReschedule(s, step, id)
  {
  }

  lemma {:induction false} SameTypeAfter(s: System, step: Step, id: TaskId)
    requires FreshIds(s.db) && id in s.db.tasks
    ensures id in Apply(s, step).db.tasks && Apply(s, step).db.types == s.db.types
    ensures Apply(s, step).db.tasks[id].typeCode == s.db.tasks[id].typeCode
  {
    match step
    case By(a, act) =>
      BudgetBound.ActKeepsType(s, a, act, id);
      ActsLeaveConfiguration(s, a, act);
    case Around(event) =>
      BudgetBound.EventKeepsType(s, event, id);
      EventsLeaveConfiguration(s, event);
  }

  lemma {:induction false} AllCountedStep(s: System, step: Step, id: TaskId, cap: nat)
    requires TaskLife.Booked(s, cap) && FreshIds(s.db) && AllCounted(s, id)
    requires StepInOrder(s, step) || (step.By? && step.act.Leave?)
    ensures AllCounted(Apply(s, step), id)
  {
    TaskLife.UncountedGrowsIff(s, step, id);
    if id in s.db.tasks {
      SameTypeAfter(s, step, id);
      if OfEnabledType(s.db, id) && StepInOrder(s, step) {
        OrderedFinishCounts(s, step, id);
      }
    } else {
      assert TaskLife.BooksBalance(s, id, cap);
    }
  }

  lemma {:induction false} AllCountedRun(s: System, steps: seq<Step>, id: TaskId, cap: nat)
    requires TaskLife.Booked(s, cap) && LeasesOwnTheirTask(s) && FreshIds(s.db) && AllCounted(s, id)
    requires OrderedRun(s, steps) && TaskLife.CappedRun(steps, cap)
    ensures AllCounted(Exec(s, steps), id)
    decreases |steps|
  {
    if steps != [] {
      assert steps[0].Around? ==> TaskLife.WatchdogWithin(steps[0].event, cap);
      TaskLife.BookedStep(s, steps[0], cap);
      AllCountedStep(s, steps[0], id, cap);
      LeasesKeepTheirTask(s, steps[0]);
      IdsStayFresh(s, steps[0]);
      AllCountedRun(Apply(s, steps[0]), steps[1..], id, cap);
    }
  }

  /** A task of an enabled type does not circulate for ever: with executors that follow the
      program, or crash, it is claimed at most as often as its budgets say. */
  lemma EnabledTypeIsBounded(s: System, steps: seq<Step>, id: TaskId, cap: nat)
    requires Start(s) && OrderedRun(s, steps) && TaskLife.CappedRun(steps, cap)
    requires OfEnabledType(Exec(s, steps).db, id)
    ensures var after := Exec(s, steps);
      LedgerOf(after, id).claims
        <= TaskLife.MaxAttempts(after.db.tasks[id]) + 2 * TaskLife.PostponeBudget(after.db, after.db.tasks[id]) + cap
  {
    TaskLife.ClaimsAreBounded(s, steps, id, cap);
    AllCountedRun(s, steps, id, cap);
  }
}
