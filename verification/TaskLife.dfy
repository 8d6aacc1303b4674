/** How long a task can live: the attempt, postpone and watchdog counters bound the number
    of times it is claimed. */
module TaskLife {
  import opened Schema
  import opened QueueTable
  import opened System

  function AtLeast(low: int, n: int): (r: nat)
    requires low >= 0
    ensures r == low || r == n
  {
    if n < low then low else n
  }

  function MaxAttempts(t: Task): nat { AtLeast(1, t.maxAttempts) }

  function PostponeBudget(db: Db, t: Task): nat { AtLeast(0, MaxPostpones(db, t)) }

  // What the counters record so far.
  function Spent(t: Task): nat {
    t.attemptCount + t.postponeCount + t.payload.watchdogRetries
  }

  /** The books of one task, for a watchdog that retries at most `cap` times. Every claim so
      far shows up in a counter, except reschedules that counted no attempt and the latest
      claim while its attempt has not begun. */
  predicate BooksBalance(s: System, id: TaskId, cap: nat) {
    var l := LedgerOf(s, id);
    if id !in s.db.tasks then l == Ledger(0, false, 0, [])
    else
      var t := s.db.tasks[id];
      var running := t.status.InProgress?;
      && l.claims <= Spent(t) + l.uncounted + (if !Claimable(t.status) && !l.counted then 1 else 0)
      && t.postponeCount <= PostponeBudget(s.db, t)
      && t.payload.watchdogRetries <= cap
      && t.attemptCount <= MaxAttempts(t) + t.postponeCount
      && (Claimable(t.status) || !l.counted ==> t.attemptCount + 1 <= MaxAttempts(t) + t.postponeCount)
  }

  // An executor that has begun its attempt under the latest claim is on the books for it.
  predicate BegunIsCounted(s: System, a: Actor) {
    Owns(s, a) ==> PhaseOf(s, a).begun == LedgerOf(s, PhaseOf(s, a).task).counted
  }

  lemma StandingBalances(s: System, t: System, id: TaskId, cap: nat)
    requires BooksBalance(s, id, cap) && SameStanding(s, t, id) && t.db.types == s.db.types
    ensures BooksBalance(t, id, cap)
  {
  }

  lemma {:induction false} FinishBalances(s: System, a: Actor, how: Finisher, id: TaskId, cap: nat)
    requires BooksBalance(s, id, cap) && BegunIsCounted(s, a)
    ensures BooksBalance(ApplyAct(s, a, Finish(how)), id, cap)
  {
    if id == Subject(s, a, Finish(how)) {
      match how
      case Postponing(_, _) => PostponeBalances(s, a, how, id, cap);
      case Rescheduling(_, _) => RescheduleBalances(s, a, how, id, cap);
      case _ => CloseBalances(s, a, how, id, cap);
    } else {
      OtherTasksStand(s, a, Finish(how), id);
      ActsLeaveConfiguration(s, a, Finish(how));
      StandingBalances(s, ApplyAct(s, a, Finish(how)), id, cap);
    }
  }

  lemma {:induction false} CloseBalances(s: System, a: Actor, how: Finisher, id: TaskId, cap: nat)
    requires BooksBalance(s, id, cap) && BegunIsCounted(s, a) && (how.Completing? || how.Failing?)
    ensures BooksBalance(ApplyAct(s, a, Finish(how)), id, cap)
  {
  }

  lemma {:induction false} RescheduleBalances(s: System, a: Actor, how: Finisher, id: TaskId, cap: nat)
    requires BooksBalance(s, id, cap) && BegunIsCounted(s, a) && how.Rescheduling?
    ensures BooksBalance(ApplyAct(s, a, Finish(how)), id, cap)
  {
  }

  lemma {:induction false} PostponeBalances(s: System, a: Actor, how: Finisher, id: TaskId, cap: nat)
    requires BooksBalance(s, id, cap) && BegunIsCounted(s, a) && how.Postponing?
    ensures BooksBalance(ApplyAct(s, a, Finish(how)), id, cap)
  {
  }

  lemma {:induction false} ClaimBalances(s: System, a: Actor, act: Act, id: TaskId, cap: nat)
    requires BooksBalance(s, id, cap) && FreshIds(s.db) && (act.ClaimTask? || act.OpenLease?)
    ensures BooksBalance(ApplyAct(s, a, act), id, cap)
  {
  }

  lemma {:induction false} BeginBalances(s: System, a: Actor, id: TaskId, cap: nat)
    requires BooksBalance(s, id, cap) && BegunIsCounted(s, a)
    ensures BooksBalance(ApplyAct(s, a, Begin), id, cap)
  {
  }

  // The other acts move no counter.
  lemma {:induction false} OtherActsLeaveBooks(s: System, a: Actor, act: Act, id: TaskId, cap: nat)
    requires BooksBalance(s, id, cap) && !MovesTask(act)
    ensures BooksBalance(ApplyAct(s, a, act), id, cap)
  {
    QuietActsStand(s, a, act, id);
    ActsLeaveConfiguration(s, a, act);
    StandingBalances(s, ApplyAct(s, a, act), id, cap);
  }

  lemma {:induction false} ActBalances(s: System, a: Actor, act: Act, id: TaskId, cap: nat)
    requires BooksBalance(s, id, cap) && BegunIsCounted(s, a) && FreshIds(s.db)
    ensures BooksBalance(ApplyAct(s, a, act), id, cap)
  {
    match act
    case Finish(how) => FinishBalances(s, a, how, id, cap);
    case ClaimTask(_, _) => ClaimBalances(s, a, act, id, cap);
    case OpenLease(_, _, _) => ClaimBalances(s, a, act, id, cap);
    case Begin => BeginBalances(s, a, id, cap);
    case _ => OtherActsLeaveBooks(s, a, act, id, cap);
  }

  predicate WatchdogWithin(event: Event, cap: nat) {
    event.WatchdogMark? && event.policy.enabled ==> event.policy.cap <= cap
  }

  lemma {:induction false} WatchdogBalances(s: System, batch: set<TaskId>, policy: AutoRetry, id: TaskId, cap: nat)
    requires BooksBalance(s, id, cap) && (policy.enabled ==> policy.cap <= cap)
    ensures BooksBalance(ApplyEvent(s, WatchdogMark(batch, policy)), id, cap)
  {
    if id in batch { MarkingBalances(s, batch, policy, id, cap); } else { UnmarkedStands(s, batch, policy, id, cap); }
  }

  lemma {:induction false} MarkingBalances(s: System, batch: set<TaskId>, policy: AutoRetry, id: TaskId, cap: nat)
    requires BooksBalance(s, id, cap) && (policy.enabled ==> policy.cap <= cap) && id in batch
    ensures BooksBalance(ApplyEvent(s, WatchdogMark(batch, policy)), id, cap)
  {
  }

  lemma {:induction false} UnmarkedStands(s: System, batch: set<TaskId>, policy: AutoRetry, id: TaskId, cap: nat)
    requires BooksBalance(s, id, cap) && id !in batch
    ensures BooksBalance(ApplyEvent(s, WatchdogMark(batch, policy)), id, cap)
  {
    var t := ApplyEvent(s, WatchdogMark(batch, policy));
    assert SameStanding(s, t, id) && t.db.types == s.db.types;
    StandingBalances(s, t, id, cap);
  }

  lemma {:induction false} OtherEventsLeaveBooks(s: System, event: Event, id: TaskId, cap: nat)
    requires BooksBalance(s, id, cap) && FreshIds(s.db) && !event.WatchdogMark?
    ensures BooksBalance(ApplyEvent(s, event), id, cap)
  {
  }

  lemma {:induction false} EventBalances(s: System, event: Event, id: TaskId, cap: nat)
    requires BooksBalance(s, id, cap) && FreshIds(s.db) && WatchdogWithin(event, cap)
    ensures BooksBalance(ApplyEvent(s, event), id, cap)
  {
    match event
    case WatchdogMark(batch, policy) => WatchdogBalances(s, batch, policy, id, cap);
    case _ => OtherEventsLeaveBooks(s, event, id, cap);
  }

  lemma StandingKeepsBegun(s: System, t: System, a: Actor)
    requires BegunIsCounted(s, a)
    requires PhaseOf(s, a).Working? && SameStanding(s, t, PhaseOf(s, a).task)
    requires var p, q := PhaseOf(s, a), PhaseOf(t, a); q.Working? ==> q.task == p.task && q.begun == p.begun
    ensures BegunIsCounted(t, a)
  {
  }

  lemma {:induction false} ActKeepsBegun(s: System, a: Actor, act: Act)
    requires BegunIsCounted(s, a) && FreshIds(s.db)
    ensures BegunIsCounted(ApplyAct(s, a, act), a)
  {
    if PhaseOf(s, a).Working? && !MovesTask(act) {
      QuietActsStand(s, a, act, PhaseOf(s, a).task);
      QuietActKeepsClaim(s, a, act);
      StandingKeepsBegun(s, ApplyAct(s, a, act), a);
    } else {
      MoveKeepsOwnBegun(s, a, act);
    }
  }

  lemma {:induction false} MoveKeepsOwnBegun(s: System, a: Actor, act: Act)
    requires BegunIsCounted(s, a) && (MovesTask(act) || PhaseOf(s, a).Idle?)
    ensures BegunIsCounted(ApplyAct(s, a, act), a)
  {
  }

  lemma {:induction false} OthersKeepBegun(s: System, b: Actor, act: Act, a: Actor)
    requires BegunIsCounted(s, a) && LeasesOwnTheirTask(s) && a != b
    ensures BegunIsCounted(ApplyAct(s, b, act), a)
  {
    OthersKeepPhase(s, a, b, act);
    if PhaseOf(s, a).Working? {
      if MovesTask(act) && PhaseOf(s, a).task == Subject(s, b, act) {
        MoveKeepsBegun(s, b, act, a);
      } else {
        OtherTasksStand(s, b, act, PhaseOf(s, a).task);
        StandingKeepsBegun(s, ApplyAct(s, b, act), a);
      }
    }
  }

  // Two owners of one task are the same executor, so the task was not `a`'s to begin with.
  lemma {:induction false} MoveKeepsBegun(s: System, b: Actor, act: Act, a: Actor)
    requires BegunIsCounted(s, a) && LeasesOwnTheirTask(s) && a != b && MovesTask(act)
    requires PhaseOf(s, a).Working? && PhaseOf(s, a).task == Subject(s, b, act)
    ensures BegunIsCounted(ApplyAct(s, b, act), a)
  {
    if Owns(s, a) && Owns(s, b) && PhaseOf(s, a).task == PhaseOf(s, b).task {
      OwnerIsUnique(s, a, b);
    }
  }

  lemma {:induction false} EventKeepsBegun(s: System, event: Event, a: Actor)
    requires BegunIsCounted(s, a)
    ensures BegunIsCounted(ApplyEvent(s, event), a)
  {
  }

  ghost predicate Booked(s: System, cap: nat) {
    (forall id :: BooksBalance(s, id, cap)) && (forall a :: BegunIsCounted(s, a))
  }

  lemma {:induction false} BookedStep(s: System, step: Step, cap: nat)
    requires Booked(s, cap) && LeasesOwnTheirTask(s) && FreshIds(s.db)
    requires step.Around? ==> WatchdogWithin(step.event, cap)
    ensures Booked(Apply(s, step), cap)
  {
    forall id ensures BooksBalance(Apply(s, step), id, cap) {
      assert BooksBalance(s, id, cap);
      match step
      case By(a, act) =>
        assert BegunIsCounted(s, a);
        ActBalances(s, a, act, id, cap);
      case Around(event) => EventBalances(s, event, id, cap);
    }
    forall a ensures BegunIsCounted(Apply(s, step), a) {
      assert BegunIsCounted(s, a);
      match step
      case By(b, act) =>
        if a == b { ActKeepsBegun(s, a, act); } else { OthersKeepBegun(s, b, act, a); }
      case Around(event) => EventKeepsBegun(s, event, a);
    }
  }

  predicate CappedRun(steps: seq<Step>, cap: nat) {
    forall i :: 0 <= i < |steps| && steps[i].Around? ==> WatchdogWithin(steps[i].event, cap)
  }

  lemma {:induction false} BookedRun(s: System, steps: seq<Step>, cap: nat)
    requires Booked(s, cap) && LeasesOwnTheirTask(s) && FreshIds(s.db) && CappedRun(steps, cap)
    ensures Booked(Exec(s, steps), cap)
    decreases |steps|
  {
    if steps != [] {
      assert steps[0].Around? ==> WatchdogWithin(steps[0].event, cap);
      BookedStep(s, steps[0], cap);
      LeasesKeepTheirTask(s, steps[0]);
      IdsStayFresh(s, steps[0]);
      BookedRun(Apply(s, steps[0]), steps[1..], cap);
    }
  }

  /** In every run, however its executors fail, crash and time out, a task is claimed at most
      max_attempts + 2 * max_postpone_count + watchdog cap times, plus the reschedules that
      counted no attempt; and its counters stay within their budgets. */
  lemma ClaimsAreBounded(s: System, steps: seq<Step>, id: TaskId, cap: nat)
    requires Start(s) && CappedRun(steps, cap) && id in Exec(s, steps).db.tasks
    ensures var after := Exec(s, steps);
      var t := after.db.tasks[id];
      && t.postponeCount <= PostponeBudget(after.db, t)
      && t.attemptCount <= MaxAttempts(t) + t.postponeCount
      && LedgerOf(after, id).claims
         <= MaxAttempts(t) + 2 * PostponeBudget(after.db, t) + cap + LedgerOf(after, id).uncounted
  {
    BookedRun(s, steps, cap);
    assert BooksBalance(Exec(s, steps), id, cap);
  }

  // ----- the reschedule that counts nothing -----

  /** The owner hands a task back by a reschedule under a claim that counted no attempt. */
  predicate FreeReschedule(s: System, step: Step, id: TaskId) {
    match step
    case By(a, Finish(how)) =>
      && how.Rescheduling? && Busy(s, a) && Owns(s, a) && PhaseOf(s, a).task == id
      && !LedgerOf(s, id).counted && !AttemptsExhausted(s.db.tasks[id])
    case _ => false
  }

  lemma {:induction false} OwnerAloneFinishes(s: System, a: Actor, how: Finisher, id: TaskId)
    ensures LedgerOf(ApplyAct(s, a, Finish(how)), id).uncounted
         == LedgerOf(s, id).uncounted + if FreeReschedule(s, By(a, Finish(how)), id) then 1 else 0
  {
  }

  lemma {:induction false} OtherActsCountOn(s: System, a: Actor, act: Act, id: TaskId)
    requires !act.Finish?
    ensures LedgerOf(ApplyAct(s, a, act), id).uncounted == LedgerOf(s, id).uncounted
  {
  }

  lemma {:induction false} EventsCountOn(s: System, event: Event, id: TaskId)
    ensures LedgerOf(ApplyEvent(s, event), id).uncounted == LedgerOf(s, id).uncounted
  {
  }

  /** The reschedules that counted nothing grow at no other step, and at this one by one. */
  lemma {:induction false} UncountedGrowsIff(s: System, step: Step, id: TaskId)
    ensures LedgerOf(Apply(s, step), id).uncounted
         == LedgerOf(s, id).uncounted + if FreeReschedule(s, step, id) then 1 else 0
  {
    match step
    case By(a, act) =>
      if act.Finish? { OwnerAloneFinishes(s, a, act.how, id); } else { OtherActsCountOn(s, a, act, id); }
    case Around(event) => EventsCountOn(s, event, id);
  }

  ghost predicate NoFreeReschedule(s: System, steps: seq<Step>, id: TaskId)
    decreases |steps|
  {
    steps == [] || (!FreeReschedule(s, steps[0], id) && NoFreeReschedule(Apply(s, steps[0]), steps[1..], id))
  }

  lemma {:induction false} UncountedStays(s: System, steps: seq<Step>, id: TaskId)
    requires NoFreeReschedule(s, steps, id)
    ensures LedgerOf(Exec(s, steps), id).uncounted == LedgerOf(s, id).uncounted
    decreases |steps|
  {
    if steps != [] {
      UncountedGrowsIff(s, steps[0], id);
      UncountedStays(Apply(s, steps[0]), steps[1..], id);
    }
  }

  /** Without such a reschedule the budgets alone bound how often a task is claimed. */
  lemma ClaimsWithinBudgets(s: System, steps: seq<Step>, id: TaskId, cap: nat)
    requires Start(s) && CappedRun(steps, cap) && id in Exec(s, steps).db.tasks
    requires NoFreeReschedule(s, steps, id)
    ensures var after := Exec(s, steps);
      LedgerOf(after, id).claims
        <= MaxAttempts(after.db.tasks[id]) + 2 * PostponeBudget(after.db, after.db.tasks[id]) + cap
  {
    ClaimsAreBounded(s, steps, id, cap);
    UncountedStays(s, steps, id);
  }

  // One executor takes a waiting task, finds its type disabled and hands it back at once.
  function HandBack(worker: nat, id: TaskId, error: Option<string>): seq<Step> {
    var a := WorkerActor(worker);
    [By(a, ClaimTask(id, 300)), By(a, Finish(Rescheduling(error, 0))), By(a, Leave)]
  }

  predicate WaitsUnattempted(s: System, worker: nat, id: TaskId) {
    && PhaseOf(s, WorkerActor(worker)).Idle? && Ready(s.db, id, None)
    && s.db.tasks[id].attemptCount < s.db.tasks[id].maxAttempts
  }

  lemma {:induction false} HandBackOnce(s: System, worker: nat, id: TaskId, error: Option<string>)
    requires WaitsUnattempted(s, worker, id)
    ensures ClaimedInVain(s, Exec(s, HandBack(worker, id, error)), worker, id, 1)
  {
    var a, steps := WorkerActor(worker), HandBack(worker, id, error);
    var s1 := Apply(s, steps[0]);
    var s2 := Apply(s1, steps[1]);
    ClaimedUnattempted(s, worker, id);
    HandedBack(s1, worker, id, error);
    assert steps[1..][1..] == [steps[2]] && steps[1..][0] == steps[1];
    assert Exec(s2, [steps[2]]) == Exec(Apply(s2, steps[2]), []);
    assert Exec(s1, steps[1..]) == Exec(s2, steps[1..][1..]);
  }

  predicate WorksUnattempted(s: System, worker: nat, id: TaskId) {
    var a := WorkerActor(worker);
    && Owns(s, a) && Busy(s, a) && PhaseOf(s, a).task == id
    && s.db.tasks[id].attemptCount < s.db.tasks[id].maxAttempts
  }

  lemma {:induction false} ClaimedUnattempted(s: System, worker: nat, id: TaskId)
    requires WaitsUnattempted(s, worker, id)
    ensures var t := Apply(s, By(WorkerActor(worker), ClaimTask(id, 300)));
      && WorksUnattempted(t, worker, id) && t.db.now == s.db.now
      && LedgerOf(t, id).claims == LedgerOf(s, id).claims + 1
      && t.db.tasks[id].attemptCount == s.db.tasks[id].attemptCount
  {
  }

  lemma {:induction false} HandedBack(s: System, worker: nat, id: TaskId, error: Option<string>)
    requires WorksUnattempted(s, worker, id)
    ensures var t := Apply(Apply(s, By(WorkerActor(worker), Finish(Rescheduling(error, 0)))),
                           By(WorkerActor(worker), Leave));
      && WaitsUnattempted(t, worker, id)
      && LedgerOf(t, id).claims == LedgerOf(s, id).claims
      && t.db.tasks[id].attemptCount == s.db.tasks[id].attemptCount
  {
  }

  function HandBacks(n: nat, worker: nat, id: TaskId, error: Option<string>): seq<Step> {
    if n == 0 then [] else HandBacks(n - 1, worker, id, error) + HandBack(worker, id, error)
  }

  // After n claims more the task waits as before.
  predicate ClaimedInVain(s: System, t: System, worker: nat, id: TaskId, n: nat)
    requires id in s.db.tasks
  {
    && WaitsUnattempted(t, worker, id)
    && LedgerOf(t, id).claims == LedgerOf(s, id).claims + n
    && t.db.tasks[id].attemptCount == s.db.tasks[id].attemptCount
  }

  lemma {:induction false} HandBackAgain(s: System, t: System, n: nat, worker: nat, id: TaskId, error: Option<string>)
    requires id in s.db.tasks && ClaimedInVain(s, t, worker, id, n)
    ensures ClaimedInVain(s, Exec(t, HandBack(worker, id, error)), worker, id, n + 1)
  {
    HandBackOnce(t, worker, id, error);
  }

  /** The last term of the bound cannot be dropped: while a type is disabled its tasks are
      claimed and handed back without end, with no counter moving. */
  lemma {:induction false} DisabledTypeIsClaimedForever(s: System, n: nat, worker: nat, id: TaskId,
                                                        error: Option<string>)
    requires WaitsUnattempted(s, worker, id)
    ensures ClaimedInVain(s, Exec(s, HandBacks(n, worker, id, error)), worker, id, n)
    decreases n
  {
    if n > 0 {
      DisabledTypeIsClaimedForever(s, n - 1, worker, id, error);
      HandBackAgain(s, Exec(s, HandBacks(n - 1, worker, id, error)), n - 1, worker, id, error);
      ExecConcat(s, HandBacks(n - 1, worker, id, error), HandBack(worker, id, error));
    }
  }
}
