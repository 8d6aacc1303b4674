/** Account exclusivity: an executor whose claim is in force really has the accounts it
    believes it reserved, so no two of them ever share one. */
module Exclusivity {
  import opened Schema
  import opened QueueTable
  import opened AccountTable
  import opened System

  predicate Holds(s: System, a: Actor, account: AccountId) {
    PhaseOf(s, a).Working? && account in PhaseOf(s, a).held
  }

  predicate Reserved(s: System, account: AccountId, id: TaskId) {
    account in s.db.accounts && s.db.accounts[account].currentTask == Some(id)
  }

  ghost predicate InUse(s: System, account: AccountId) {
    exists b :: Owns(s, b) && Holds(s, b, account)
  }

  predicate Kept(s: System, a: Actor, account: AccountId) {
    Owns(s, a) && Holds(s, a, account) ==> Reserved(s, account, PhaseOf(s, a).task)
  }

  /** Every account held under a claim in force carries that claim's task. */
  ghost predicate Exclusive(s: System) {
    forall a, account :: Kept(s, a, account)
  }

  /** The steps that take an account from under a claim in force: releasing, with only the
      task id to compare, an account that another claim of the same task has reserved; and
      writing a ban or an error to an account in use. */
  ghost predicate Disturbs(s: System, step: Step) {
    match step
    case By(a, GiveBack(account)) =>
      Holds(s, a, account)
      && exists b :: b != a && Owns(s, b) && PhaseOf(s, b).task == PhaseOf(s, a).task && Holds(s, b, account)
    case Around(BanAccount(account)) => InUse(s, account)
    case Around(BreakAccount(account)) =>
      account in s.db.accounts && !s.db.accounts[account].status.Banned? && InUse(s, account)
    case _ => false
  }

  lemma {:induction false} ActKeepsOthers(s: System, b: Actor, act: Act, a: Actor, account: AccountId)
    requires Exclusive(s) && LeasesOwnTheirTask(s) && !Disturbs(s, By(b, act)) && a != b
    ensures Kept(ApplyAct(s, b, act), a, account)
  {
    assert Kept(s, a, account);
    if act.GiveBack? {
      GiveBackKeepsOthers(s, b, act.account, a, account);
    } else if act.ReserveOne? || act.ReserveTwo? || act.PickAny? {
      TakingKeepsOthers(s, b, act, a, account);
    } else {
      QueueActsKeepOthers(s, b, act, a, account);
    }
  }

  lemma {:induction false} GiveBackKeepsOthers(s: System, b: Actor, given: AccountId, a: Actor, account: AccountId)
    requires Kept(s, a, account) && !Disturbs(s, By(b, GiveBack(given))) && a != b
    ensures Kept(ApplyAct(s, b, GiveBack(given)), a, account)
  {
  }

  lemma {:induction false} TakingKeepsOthers(s: System, b: Actor, act: Act, a: Actor, account: AccountId)
    requires Kept(s, a, account) && a != b && (act.ReserveOne? || act.ReserveTwo? || act.PickAny?)
    ensures Kept(ApplyAct(s, b, act), a, account)
  {
  }

  lemma {:induction false} QueueActsKeepOthers(s: System, b: Actor, act: Act, a: Actor, account: AccountId)
    requires Kept(s, a, account) && LeasesOwnTheirTask(s) && a != b
    requires !act.ReserveOne? && !act.ReserveTwo? && !act.PickAny? && !act.GiveBack?
    ensures Kept(ApplyAct(s, b, act), a, account)
  {
    QueueActsLeaveAccounts(s, b, act, a);
    if PhaseOf(s, a).Working? && !Owns(s, a) {
      OthersDoNotGain(s, b, act, a);
    }
  }

  lemma {:induction false} QueueActsLeaveAccounts(s: System, b: Actor, act: Act, a: Actor)
    requires a != b && !act.ReserveOne? && !act.ReserveTwo? && !act.PickAny? && !act.GiveBack?
    ensures ApplyAct(s, b, act).db.accounts == s.db.accounts && PhaseOf(ApplyAct(s, b, act), a) == PhaseOf(s, a)
  {
  }

  lemma StandingKeepsOwner(s: System, t: System, a: Actor)
    requires PhaseOf(t, a) == PhaseOf(s, a) && PhaseOf(s, a).Working? && SameStanding(s, t, PhaseOf(s, a).task)
    ensures Owns(t, a) <==> Owns(s, a)
  {
  }

  // Nobody comes to own a task through an act of somebody else.
  lemma {:induction false} OthersDoNotGain(s: System, b: Actor, act: Act, a: Actor)
    requires a != b && LeasesOwnTheirTask(s) && PhaseOf(s, a).Working? && !Owns(s, a)
    ensures !Owns(ApplyAct(s, b, act), a)
  {
    OthersKeepPhase(s, a, b, act);
    if MovesTask(act) && PhaseOf(s, a).task == Subject(s, b, act) {
      MoveGrantsNobodyElse(s, b, act, a);
    } else {
      OtherTasksStand(s, b, act, PhaseOf(s, a).task);
      StandingKeepsOwner(s, ApplyAct(s, b, act), a);
    }
  }

  lemma {:induction false} MoveGrantsNobodyElse(s: System, b: Actor, act: Act, a: Actor)
    requires a != b && LeasesOwnTheirTask(s) && PhaseOf(s, a).Working? && !Owns(s, a) && MovesTask(act)
    requires PhaseOf(s, a).task == Subject(s, b, act)
    ensures !Owns(ApplyAct(s, b, act), a)
  {
  }

  lemma {:induction false} ActKeepsOwn(s: System, a: Actor, act: Act, account: AccountId)
    requires Exclusive(s)
    ensures Kept(ApplyAct(s, a, act), a, account)
  {
    assert Kept(s, a, account);
    if act.ReserveOne? || act.ReserveTwo? || act.PickAny? || act.GiveBack? {
      AccountActsKeepOwn(s, a, act, account);
    } else if MovesTask(act) || act.Leave? {
      MovesKeepOwn(s, a, act, account);
    } else {
      QuietActsKeepOwn(s, a, act, account);
    }
  }

  lemma {:induction false} AccountActsKeepOwn(s: System, a: Actor, act: Act, account: AccountId)
    requires Kept(s, a, account) && (act.ReserveOne? || act.ReserveTwo? || act.PickAny? || act.GiveBack?)
    ensures Kept(ApplyAct(s, a, act), a, account)
  {
  }

  lemma {:induction false} MovesKeepOwn(s: System, a: Actor, act: Act, account: AccountId)
    requires Kept(s, a, account) && (MovesTask(act) || act.Leave?)
    ensures Kept(ApplyAct(s, a, act), a, account)
  {
  }

  lemma {:induction false} QuietActsKeepOwn(s: System, a: Actor, act: Act, account: AccountId)
    requires Kept(s, a, account) && !MovesTask(act) && !act.Leave?
    requires !act.ReserveOne? && !act.ReserveTwo? && !act.PickAny? && !act.GiveBack?
    ensures Kept(ApplyAct(s, a, act), a, account)
  {
  }

  // The accounts a watchdog pass frees carry tasks it has just closed.
  lemma {:induction false} WatchdogKeepsHeld(s: System, batch: set<TaskId>, policy: AutoRetry, a: Actor,
                                             account: AccountId)
    requires Kept(s, a, account)
    ensures Kept(ApplyEvent(s, WatchdogMark(batch, policy)), a, account)
  {
    var t := ApplyEvent(s, WatchdogMark(batch, policy));
    EventsDoNotMove(s, WatchdogMark(batch, policy), a);
    if Owns(t, a) && Holds(t, a, account) {
      assert Owns(s, a) && Holds(s, a, account);
    }
  }

  lemma {:induction false} EventKeepsHeld(s: System, event: Event, a: Actor, account: AccountId)
    requires Exclusive(s) && !Disturbs(s, Around(event)) && !event.WatchdogMark?
    ensures Kept(ApplyEvent(s, event), a, account)
  {
    assert Kept(s, a, account);
    EventsDoNotMove(s, event, a);
    if event.BanAccount? || event.BreakAccount? {
      if Owns(s, a) && Holds(s, a, account) {
        assert InUse(s, account);
      }
      HealthKeepsHeld(s, event, a, account);
    } else if event.SweepOrphans? {
      SweepKeepsHeld(s, a, account);
    } else {
      OtherEventsKeepHeld(s, event, a, account);
    }
  }

  lemma {:induction false} HealthKeepsHeld(s: System, event: Event, a: Actor, account: AccountId)
    requires Kept(s, a, account) && !Disturbs(s, Around(event)) && (event.BanAccount? || event.BreakAccount?)
    requires Owns(s, a) && Holds(s, a, account) ==> InUse(s, account)
    ensures Kept(ApplyEvent(s, event), a, account)
  {
  }

  lemma {:induction false} SweepKeepsHeld(s: System, a: Actor, account: AccountId)
    requires Kept(s, a, account)
    ensures Kept(ApplyEvent(s, SweepOrphans), a, account)
  {
  }

  lemma {:induction false} OtherEventsKeepHeld(s: System, event: Event, a: Actor, account: AccountId)
    requires Kept(s, a, account)
    requires !event.BanAccount? && !event.BreakAccount? && !event.SweepOrphans? && !event.WatchdogMark?
    ensures Kept(ApplyEvent(s, event), a, account)
  {
  }

  /** Under exclusivity one step keeps it exactly when the step is not one of those. */
  lemma {:induction false} ExclusiveStep(s: System, step: Step)
    requires Exclusive(s) && LeasesOwnTheirTask(s)
    ensures Exclusive(Apply(s, step)) <==> !Disturbs(s, step)
  {
    if Disturbs(s, step) {
      DisturbanceBreaks(s, step);
    } else {
      forall a, account ensures Kept(Apply(s, step), a, account) {
        match step
        case By(b, act) =>
          if a == b { ActKeepsOwn(s, b, act, account); } else { ActKeepsOthers(s, b, act, a, account); }
        case Around(event) =>
          if event.WatchdogMark? {
            assert Kept(s, a, account);
            WatchdogKeepsHeld(s, event.batch, event.policy, a, account);
          } else {
            EventKeepsHeld(s, event, a, account);
          }
      }
    }
  }

  lemma {:induction false} DisturbanceBreaks(s: System, step: Step)
    requires Exclusive(s) && Disturbs(s, step)
    ensures !Exclusive(Apply(s, step))
  {
    var t := Apply(s, step);
    var account := if step.By? then step.act.account else step.event.account;
    var b :| Owns(s, b) && Holds(s, b, account)
             && (step.By? ==> b != step.actor && PhaseOf(s, b).task == PhaseOf(s, step.actor).task);
    assert Kept(s, b, account) && !Kept(t, b, account);
  }

  ghost predicate Undisturbed(s: System, steps: seq<Step>)
    decreases |steps|
  {
    steps == [] || (!Disturbs(s, steps[0]) && Undisturbed(Apply(s, steps[0]), steps[1..]))
  }

  lemma {:induction false} ExclusiveRun(s: System, steps: seq<Step>)
    requires Exclusive(s) && LeasesOwnTheirTask(s) && Undisturbed(s, steps)
    ensures Exclusive(Exec(s, steps)) && LeasesOwnTheirTask(Exec(s, steps))
    decreases |steps|
  {
    if steps != [] {
      ExclusiveStep(s, steps[0]);
      LeasesKeepTheirTask(s, steps[0]);
      ExclusiveRun(Apply(s, steps[0]), steps[1..]);
    }
  }

  /** Exclusivity says what it is named for. */
  lemma {:induction false} NoSharedAccount(s: System, a: Actor, b: Actor, account: AccountId)
    requires Exclusive(s) && LeasesOwnTheirTask(s)
    requires Owns(s, a) && Owns(s, b) && Holds(s, a, account) && Holds(s, b, account)
    ensures a == b
  {
    assert Kept(s, a, account) && Kept(s, b, account);
    OwnerIsUnique(s, a, b);
  }

  // ----- the default configuration -----

  /** What the deployment relies on: the watchdog does not retry; an account in use is not
      banned or marked broken; and a task is claimed again only after the `finally` block of
      its previous dispatch has released everything (its delay outlasts that block). */
  ghost predicate Default(s: System, step: Step) {
    match step
    case By(_, ClaimTask(id, _)) =>
      forall b :: PhaseOf(s, b).Working? && PhaseOf(s, b).task == id ==> PhaseOf(s, b).held == {}
    case Around(WatchdogMark(_, policy)) => !policy.enabled
    case Around(BanAccount(account)) => !InUse(s, account)
    case Around(BreakAccount(account)) => !InUse(s, account)
    case _ => true
  }

  ghost predicate DefaultRun(s: System, steps: seq<Step>)
    decreases |steps|
  {
    steps == [] || (Default(s, steps[0]) && DefaultRun(Apply(s, steps[0]), steps[1..]))
  }

  predicate Spent(p: Phase) {
    p.Working? && p.closed && p.held == {}
  }

  // Nobody inside a dispatch is ahead of a task that waits to be claimed.
  predicate InPlace(s: System, a: Actor) {
    var p := PhaseOf(s, a);
    p.Working? ==> p.task in s.db.tasks && (Claimable(s.db.tasks[p.task].status) ==> p.closed)
  }

  // Besides the owner, only executors with nothing left to release still have its task.
  predicate Yields(s: System, a: Actor, b: Actor) {
    a != b && Owns(s, b) && PhaseOf(s, a).Working? && PhaseOf(s, a).task == PhaseOf(s, b).task ==> Spent(PhaseOf(s, a))
  }

  ghost predicate OneAtATime(s: System) {
    (forall a :: InPlace(s, a)) && (forall a, b :: Yields(s, a, b))
  }

  lemma {:induction false} StepStaysInPlace(s: System, step: Step, a: Actor)
    requires OneAtATime(s) && FreshIds(s.db) && Default(s, step)
    ensures InPlace(Apply(s, step), a)
  {
    assert InPlace(s, a);
    match step
    case By(c, act) =>
      assert Yields(s, a, c);
      ActStaysInPlace(s, c, act, a);
    case Around(event) => EventStaysInPlace(s, event, a);
  }

  lemma {:induction false} StepYields(s: System, step: Step, a: Actor, b: Actor)
    requires OneAtATime(s) && FreshIds(s.db) && Default(s, step)
    ensures Yields(Apply(s, step), a, b)
  {
    assert InPlace(s, a) && InPlace(s, b) && Yields(s, a, b);
    match step
    case By(c, act) => if c == a { SelfYields(s, a, b, act); } else { OthersYield(s, a, b, c, act); }
    case Around(event) => EventYields(s, a, b, event);
  }

  lemma {:induction false} EventYields(s: System, a: Actor, b: Actor, event: Event)
    requires Yields(s, a, b)
    ensures Yields(ApplyEvent(s, event), a, b)
  {
  }

  lemma {:induction false} OneAtATimeStep(s: System, step: Step)
    requires OneAtATime(s) && LeasesOwnTheirTask(s) && FreshIds(s.db) && Default(s, step)
    ensures OneAtATime(Apply(s, step))
  {
    forall a ensures InPlace(Apply(s, step), a) {
      StepStaysInPlace(s, step, a);
    }
    forall a, b ensures Yields(Apply(s, step), a, b) {
      StepYields(s, step, a, b);
    }
  }

  lemma StandingStaysInPlace(s: System, t: System, a: Actor)
    requires InPlace(s, a) && PhaseOf(s, a).Working? && SameStanding(s, t, PhaseOf(s, a).task)
    requires var p, q := PhaseOf(s, a), PhaseOf(t, a); q.Working? ==> q.task == p.task && q.closed == p.closed
    ensures InPlace(t, a)
  {
  }

  lemma {:induction false} ActStaysInPlace(s: System, c: Actor, act: Act, a: Actor)
    requires InPlace(s, a) && Yields(s, a, c) && FreshIds(s.db)
    ensures InPlace(ApplyAct(s, c, act), a)
  {
    if PhaseOf(s, a).Working? && !(MovesTask(act) && PhaseOf(s, a).task == Subject(s, c, act))
        && !(MovesTask(act) && a == c) {
      OtherTasksStand(s, c, act, PhaseOf(s, a).task);
      if a == c { QuietActKeepsClaim(s, a, act); } else { OthersKeepPhase(s, a, c, act); }
      StandingStaysInPlace(s, ApplyAct(s, c, act), a);
    } else if a == c {
      OwnMoveStaysInPlace(s, a, act);
    } else {
      OthersKeepPhase(s, a, c, act);
      MoveStaysInPlace(s, c, act, a);
    }
  }

  lemma {:induction false} OwnMoveStaysInPlace(s: System, a: Actor, act: Act)
    requires InPlace(s, a) && (MovesTask(act) || PhaseOf(s, a).Idle?)
    ensures InPlace(ApplyAct(s, a, act), a)
  {
  }

  lemma {:induction false} MoveStaysInPlace(s: System, c: Actor, act: Act, a: Actor)
    requires InPlace(s, a) && Yields(s, a, c) && FreshIds(s.db) && a != c
    requires PhaseOf(s, a).Working? ==> MovesTask(act) && PhaseOf(s, a).task == Subject(s, c, act)
    requires PhaseOf(ApplyAct(s, c, act), a) == PhaseOf(s, a)
    ensures InPlace(ApplyAct(s, c, act), a)
  {
  }

  lemma {:induction false} EventStaysInPlace(s: System, event: Event, a: Actor)
    requires InPlace(s, a) && FreshIds(s.db) && Default(s, Around(event))
    ensures InPlace(ApplyEvent(s, event), a)
  {
  }

  lemma {:induction false} SelfYields(s: System, a: Actor, b: Actor, act: Act)
    requires InPlace(s, a) && InPlace(s, b) && Yields(s, a, b) && FreshIds(s.db)
    ensures Yields(ApplyAct(s, a, act), a, b)
  {
    if a != b {
      OthersKeepPhase(s, b, a, act);
      if MovesTask(act) { SelfMoveYields(s, a, b, act); } else { SelfQuietYields(s, a, b, act); }
    }
  }

  lemma {:induction false} SelfMoveYields(s: System, a: Actor, b: Actor, act: Act)
    requires InPlace(s, a) && InPlace(s, b) && Yields(s, a, b) && FreshIds(s.db) && MovesTask(act)
    requires PhaseOf(ApplyAct(s, a, act), b) == PhaseOf(s, b)
    ensures Yields(ApplyAct(s, a, act), a, b)
  {
  }

  lemma {:induction false} SelfQuietYields(s: System, a: Actor, b: Actor, act: Act)
    requires Yields(s, a, b) && !MovesTask(act) && PhaseOf(ApplyAct(s, a, act), b) == PhaseOf(s, b)
    ensures Yields(ApplyAct(s, a, act), a, b)
  {
    if PhaseOf(s, b).Working? {
      QuietActsStand(s, a, act, PhaseOf(s, b).task);
      StandingKeepsOwner(s, ApplyAct(s, a, act), b);
    }
    SpentStaysSpent(s, a, act);
  }

  lemma {:induction false} SpentStaysSpent(s: System, a: Actor, act: Act)
    requires !MovesTask(act)
    ensures var p, q := PhaseOf(s, a), PhaseOf(ApplyAct(s, a, act), a);
      q.Working? ==> p.Working? && q.task == p.task && (Spent(p) ==> Spent(q))
  {
  }

  lemma {:induction false} OthersYield(s: System, a: Actor, b: Actor, c: Actor, act: Act)
    requires InPlace(s, a) && InPlace(s, b) && Yields(s, a, b) && FreshIds(s.db) && a != c && Default(s, By(c, act))
    ensures Yields(ApplyAct(s, c, act), a, b)
  {
    OthersKeepPhase(s, a, c, act);
    if c == b {
      OwnerYields(s, a, b, act);
    } else {
      OthersKeepPhase(s, b, c, act);
      if PhaseOf(s, b).Working? {
        if MovesTask(act) && PhaseOf(s, b).task == Subject(s, c, act) {
          MoveYields(s, a, b, c, act);
        } else {
          OtherTasksStand(s, c, act, PhaseOf(s, b).task);
          StandingKeepsOwner(s, ApplyAct(s, c, act), b);
        }
      }
    }
  }

  lemma {:induction false} OwnerYields(s: System, a: Actor, b: Actor, act: Act)
    requires InPlace(s, a) && Yields(s, a, b) && FreshIds(s.db) && a != b && Default(s, By(b, act))
    requires PhaseOf(ApplyAct(s, b, act), a) == PhaseOf(s, a)
    ensures Yields(ApplyAct(s, b, act), a, b)
  {
    if PhaseOf(s, b).Working? && !MovesTask(act) {
      QuietActsStand(s, b, act, PhaseOf(s, b).task);
      QuietActKeepsClaim(s, b, act);
    } else {
      OwnerMovesYield(s, a, b, act);
    }
  }

  lemma {:induction false} OwnerMovesYield(s: System, a: Actor, b: Actor, act: Act)
    requires InPlace(s, a) && Yields(s, a, b) && FreshIds(s.db) && a != b && Default(s, By(b, act))
    requires PhaseOf(ApplyAct(s, b, act), a) == PhaseOf(s, a) && (MovesTask(act) || PhaseOf(s, b).Idle?)
    ensures Yields(ApplyAct(s, b, act), a, b)
  {
  }

  lemma {:induction false} MoveYields(s: System, a: Actor, b: Actor, c: Actor, act: Act)
    requires InPlace(s, a) && InPlace(s, b) && Yields(s, a, b) && FreshIds(s.db) && a != c && b != c
    requires MovesTask(act) && PhaseOf(s, b).Working? && PhaseOf(s, b).task == Subject(s, c, act)
    requires Default(s, By(c, act))
    ensures Yields(ApplyAct(s, c, act), a, b)
  {
  }

  lemma {:induction false} DefaultDoesNotDisturb(s: System, step: Step)
    requires OneAtATime(s) && Default(s, step)
    ensures !Disturbs(s, step)
  {
    if step.By? && step.act.GiveBack? {
      var a := step.actor;
      forall b | b != a && Owns(s, b) && PhaseOf(s, a).Working? && PhaseOf(s, b).task == PhaseOf(s, a).task
        ensures !Holds(s, a, step.act.account)
      {
        assert Yields(s, a, b);
      }
    }
  }

  /** In the default configuration, from an empty queue, every run of claims, reservations,
      releases, sweeps and watchdog passes keeps accounts exclusive. */
  lemma {:induction false} DefaultConfigurationIsExclusive(s: System, steps: seq<Step>)
    requires Start(s) && DefaultRun(s, steps)
    ensures Exclusive(Exec(s, steps)) && LeasesOwnTheirTask(Exec(s, steps))
  {
    DefaultRunIsUndisturbed(s, steps);
    ExclusiveRun(s, steps);
  }

  lemma {:induction false} DefaultRunIsUndisturbed(s: System, steps: seq<Step>)
    requires OneAtATime(s) && LeasesOwnTheirTask(s) && FreshIds(s.db) && DefaultRun(s, steps)
    ensures Undisturbed(s, steps)
    decreases |steps|
  {
    if steps != [] {
      OneAtATimeStep(s, steps[0]);
      DefaultDoesNotDisturb(s, steps[0]);
      LeasesKeepTheirTask(s, steps[0]);
      IdsStayFresh(s, steps[0]);
      DefaultRunIsUndisturbed(Apply(s, steps[0]), steps[1..]);
    }
  }

  // ----- why the claim must wait for the release -----

  // A holds the account for its task; B is free to claim; C works on something else.
  predicate ThreeExecutors(s: System, a: Actor, b: nat, c: Actor, account: AccountId) {
    && Busy(s, a) && Owns(s, a) && Holds(s, a, account) && Reserved(s, account, PhaseOf(s, a).task)
    && CooldownOver(s.db.accounts[account], s.db.now) && !AttemptsExhausted(s.db.tasks[PhaseOf(s, a).task])
    && PhaseOf(s, WorkerActor(b)).Idle?
    && Busy(s, c) && Owns(s, c) && PhaseOf(s, c).task != PhaseOf(s, a).task
  }

  function LateRelease(a: Actor, b: nat, c: Actor, id: TaskId, account: AccountId): seq<Step> {
    [By(a, Finish(Rescheduling(None, 0))), Around(SweepOrphans)]
    + [By(WorkerActor(b), ClaimTask(id, 300)), By(WorkerActor(b), ReserveOne(account))]
    + [By(a, GiveBack(account)), By(c, ReserveOne(account))]
  }

  lemma {:induction false} TwoSteps(s: System, x: Step, y: Step)
    ensures Exec(s, [x, y]) == Apply(Apply(s, x), y)
  {
    assert [x, y][1..] == [y];
    assert Exec(s, [x, y]) == Exec(Apply(s, x), [y]);
    assert Exec(Apply(s, x), [y]) == Exec(Apply(Apply(s, x), y), []);
  }

  lemma {:induction false} HandBackAndSweep(s: System, a: Actor, b: nat, c: Actor, account: AccountId)
    requires ThreeExecutors(s, a, b, c, account)
    ensures var id := PhaseOf(s, a).task;
      var t := Apply(Apply(s, By(a, Finish(Rescheduling(None, 0)))), Around(SweepOrphans));
      && Holds(t, a, account) && PhaseOf(t, a).task == id
      && Ready(t.db, id, None) && CanReserve(t.db, account) && PhaseOf(t, WorkerActor(b)).Idle?
      && Busy(t, c) && Owns(t, c) && PhaseOf(t, c).task != id
  {
    var s1 := Apply(s, By(a, Finish(Rescheduling(None, 0))));
    assert s1.db.accounts == s.db.accounts && Owns(s1, c) && Ready(s1.db, PhaseOf(s, a).task, None);
    assert Orphaned(s1.db, account);
  }

  lemma {:induction false} ClaimAndReserve(s: System, a: Actor, b: nat, c: Actor, id: TaskId, account: AccountId)
    requires Holds(s, a, account) && PhaseOf(s, a).task == id
    requires Ready(s.db, id, None) && CanReserve(s.db, account) && PhaseOf(s, WorkerActor(b)).Idle?
    requires Busy(s, c) && Owns(s, c) && PhaseOf(s, c).task != id
    ensures var w := WorkerActor(b);
      var t := Apply(Apply(s, By(w, ClaimTask(id, 300))), By(w, ReserveOne(account)));
      && Holds(t, a, account) && PhaseOf(t, a).task == id
      && Owns(t, w) && Holds(t, w, account) && Reserved(t, account, id)
      && CooldownOver(t.db.accounts[account], t.db.now)
      && Busy(t, c) && Owns(t, c) && PhaseOf(t, c).task != id && PhaseOf(t, w).task == id
  {
    var w := WorkerActor(b);
    var s1 := Apply(s, By(w, ClaimTask(id, 300)));
    assert Owns(s1, w) && Owns(s1, c) && s1.db.accounts == s.db.accounts && CanReserve(s1.db, account);
  }

  lemma {:induction false} ReleaseAndTake(s: System, a: Actor, b: nat, c: Actor, id: TaskId, account: AccountId)
    requires Holds(s, a, account) && PhaseOf(s, a).task == id && a != WorkerActor(b)
    requires Owns(s, WorkerActor(b)) && Holds(s, WorkerActor(b), account) && PhaseOf(s, WorkerActor(b)).task == id
    requires Reserved(s, account, id) && CooldownOver(s.db.accounts[account], s.db.now)
    requires Busy(s, c) && Owns(s, c) && PhaseOf(s, c).task != id
    ensures var t := Apply(Apply(s, By(a, GiveBack(account))), By(c, ReserveOne(account)));
      && Owns(t, WorkerActor(b)) && Holds(t, WorkerActor(b), account)
      && Owns(t, c) && Holds(t, c, account)
  {
    var s1 := Apply(s, By(a, GiveBack(account)));
    assert CanReserve(s1.db, account) && s1.db.tasks == s.db.tasks && Owns(s1, c) && Owns(s1, WorkerActor(b));
  }

  /** If the task comes back before A's `finally` block has run (and a sweep has freed the
      account meanwhile), A's release takes the account from B, and C reserves it: B and C
      both have their claims in force and both hold the account. */
  lemma {:induction false} LateReleaseShares(s: System, a: Actor, b: nat, c: Actor, account: AccountId)
    requires ThreeExecutors(s, a, b, c, account)
    ensures var t := Exec(s, LateRelease(a, b, c, PhaseOf(s, a).task, account));
      && Owns(t, WorkerActor(b)) && Holds(t, WorkerActor(b), account)
      && Owns(t, c) && Holds(t, c, account)
  {
    var id, w := PhaseOf(s, a).task, WorkerActor(b);
    var first := [By(a, Finish(Rescheduling(None, 0))), Around(SweepOrphans)];
    var second := [By(w, ClaimTask(id, 300)), By(w, ReserveOne(account))];
    var third := [By(a, GiveBack(account)), By(c, ReserveOne(account))];
    ExecConcat(s, first + second, third);
    ExecConcat(s, first, second);
    HandBackAndSweep(s, a, b, c, account);
    TwoSteps(s, first[0], first[1]);
    var s1 := Exec(s, first);
    ClaimAndReserve(s1, a, b, c, id, account);
    TwoSteps(s1, second[0], second[1]);
    var s2 := Exec(s1, second);
    ReleaseAndTake(s2, a, b, c, id, account);
    TwoSteps(s2, third[0], third[1]);
  }

  // ----- why an account in use must not be banned, not even by its user -----

  /** The order of the error path itself: an executor writes a ban to its account and only then
      closes its task. In between, a plain reservation by another executor, which looks at the
      reservation and not at the status, leaves two owners with one account. */
  lemma {:induction false} OwnBanShares(s: System, a: Actor, c: Actor, account: AccountId)
    requires Owns(s, a) && Holds(s, a, account) && account in s.db.accounts
    requires Busy(s, c) && Owns(s, c) && PhaseOf(s, c).task != PhaseOf(s, a).task
    ensures var t := Exec(s, [Around(BanAccount(account)), By(c, ReserveOne(account))]);
      && Owns(t, a) && Holds(t, a, account) && !Reserved(t, account, PhaseOf(t, a).task)
      && Owns(t, c) && Holds(t, c, account) && Reserved(t, account, PhaseOf(t, c).task)
  {
    TwoSteps(s, Around(BanAccount(account)), By(c, ReserveOne(account)));
    var s1 := Apply(s, Around(BanAccount(account)));
    assert CanReserve(s1.db, account) && Busy(s1, c) && Owns(s1, a) && Owns(s1, c);
  }
}
