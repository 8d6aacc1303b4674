/** What the lock name on a task row is worth: every claim is closed once, a lost claim gives
    no power, and closed tasks stay closed. */
module Fencing {
  import opened Schema
  import opened QueueTable
  import opened System

  // The claim an owner believes it has is the task's latest claim.
  predicate CurrentClaim(s: System, a: Actor) {
    Owns(s, a) ==> PhaseOf(s, a).claim == LedgerOf(s, PhaseOf(s, a).task).claims
  }

  predicate OpenClaims(s: System, id: TaskId) {
    id in s.db.tasks && s.db.tasks[id].status.InProgress?
  }

  predicate LegalCause(cause: Cause) {
    match cause
    case ByActor(_, outcome) => outcome.Done? || outcome.Failed? || outcome.Retry? || outcome.Scheduled?
    case ByWatchdog(result) => result.Stuck? || result.Failed? || result.Retry?
  }

  /** The closings of a task are its claims 1, 2, 3, ... in order, one each; only the latest
      claim can be without one, and it is so exactly while the task is in progress. */
  ghost predicate ClaimsClosedOnce(s: System, id: TaskId) {
    var l := LedgerOf(s, id);
    && |l.closings| + (if OpenClaims(s, id) then 1 else 0) == l.claims
    && forall i :: 0 <= i < |l.closings| ==> l.closings[i].claim == i + 1 && LegalCause(l.closings[i].cause)
  }

  ghost predicate ClaimsInOrder(s: System) {
    && (forall a :: CurrentClaim(s, a))
    && (forall id :: ClaimsClosedOnce(s, id))
  }

  lemma StandingKeepsClaim(s: System, t: System, a: Actor)
    requires CurrentClaim(s, a) && PhaseOf(t, a) == PhaseOf(s, a)
    requires PhaseOf(s, a).Working? ==> SameStanding(s, t, PhaseOf(s, a).task)
    ensures CurrentClaim(t, a)
  {
  }

  lemma StandingKeepsLedger(s: System, t: System, id: TaskId)
    requires ClaimsClosedOnce(s, id) && SameStanding(s, t, id)
    ensures ClaimsClosedOnce(t, id)
  {
  }

  lemma {:induction false} ActKeepsClaim(s: System, b: Actor, act: Act, a: Actor)
    requires CurrentClaim(s, a) && LeasesOwnTheirTask(s)
    ensures CurrentClaim(ApplyAct(s, b, act), a)
  {
    if a == b {
      ActKeepsOwnClaim(s, a, act);
    } else {
      OthersKeepPhase(s, a, b, act);
      if PhaseOf(s, a).Working? {
        if MovesTask(act) && PhaseOf(s, a).task == Subject(s, b, act) {
          MoveKeepsClaim(s, b, act, a);
        } else {
          OtherTasksStand(s, b, act, PhaseOf(s, a).task);
          StandingKeepsClaim(s, ApplyAct(s, b, act), a);
        }
      }
    }
  }

  lemma {:induction false} ActKeepsOwnClaim(s: System, a: Actor, act: Act)
    requires CurrentClaim(s, a)
    ensures CurrentClaim(ApplyAct(s, a, act), a)
  {
    if PhaseOf(s, a).Working? && !MovesTask(act) {
      QuietActsStand(s, a, act, PhaseOf(s, a).task);
      QuietActKeepsClaim(s, a, act);
    } else {
      MoveKeepsOwnClaim(s, a, act);
    }
  }

  lemma {:induction false} MoveKeepsOwnClaim(s: System, a: Actor, act: Act)
    requires CurrentClaim(s, a) && (MovesTask(act) || PhaseOf(s, a).Idle?)
    ensures CurrentClaim(ApplyAct(s, a, act), a)
  {
  }

  // A claim of the task ends what others may have had; the other moves are the owner's.
  lemma {:induction false} MoveKeepsClaim(s: System, b: Actor, act: Act, a: Actor)
    requires CurrentClaim(s, a) && LeasesOwnTheirTask(s) && a != b && MovesTask(act)
    requires PhaseOf(s, a).Working? && PhaseOf(s, a).task == Subject(s, b, act)
    ensures CurrentClaim(ApplyAct(s, b, act), a)
  {
  }

  lemma {:induction false} EventKeepsClaim(s: System, event: Event, a: Actor)
    requires CurrentClaim(s, a)
    ensures CurrentClaim(ApplyEvent(s, event), a)
  {
  }

  lemma {:induction false} ActKeepsLedger(s: System, a: Actor, act: Act, id: TaskId)
    requires CurrentClaim(s, a) && ClaimsClosedOnce(s, id) && FreshIds(s.db)
    ensures ClaimsClosedOnce(ApplyAct(s, a, act), id)
  {
    if MovesTask(act) && id == Subject(s, a, act) {
      match act
      case Finish(how) => FinishKeepsLedger(s, a, how, id);
      case _ => OpeningKeepsLedger(s, a, act, id);
    } else {
      OtherTasksStand(s, a, act, id);
      StandingKeepsLedger(s, ApplyAct(s, a, act), id);
    }
  }

  lemma {:induction false} OpeningKeepsLedger(s: System, a: Actor, act: Act, id: TaskId)
    requires ClaimsClosedOnce(s, id) && FreshIds(s.db) && (act.ClaimTask? || act.OpenLease? || act.Begin?)
    ensures ClaimsClosedOnce(ApplyAct(s, a, act), id)
  {
  }

  lemma {:induction false} FinishKeepsLedger(s: System, a: Actor, how: Finisher, id: TaskId)
    requires CurrentClaim(s, a) && ClaimsClosedOnce(s, id)
    ensures ClaimsClosedOnce(ApplyAct(s, a, Finish(how)), id)
  {
  }

  lemma {:induction false} EventKeepsLedger(s: System, event: Event, id: TaskId)
    requires ClaimsClosedOnce(s, id) && FreshIds(s.db)
    ensures ClaimsClosedOnce(ApplyEvent(s, event), id)
  {
    if event.WatchdogMark? {
      WatchdogKeepsLedger(s, event.batch, event.policy, id);
    }
  }

  lemma {:induction false} WatchdogKeepsLedger(s: System, batch: set<TaskId>, policy: AutoRetry, id: TaskId)
    requires ClaimsClosedOnce(s, id)
    ensures ClaimsClosedOnce(ApplyEvent(s, WatchdogMark(batch, policy)), id)
  {
  }

  lemma {:induction false} FencedStep(s: System, step: Step)
    requires ClaimsInOrder(s) && LeasesOwnTheirTask(s) && FreshIds(s.db)
    ensures ClaimsInOrder(Apply(s, step))
  {
    forall a ensures CurrentClaim(Apply(s, step), a) {
      assert CurrentClaim(s, a);
      match step
      case By(b, act) =>
        ActKeepsClaim(s, b, act, a);
      case Around(event) => EventKeepsClaim(s, event, a);
    }
    forall id ensures ClaimsClosedOnce(Apply(s, step), id) {
      assert ClaimsClosedOnce(s, id);
      match step
      case By(b, act) =>
        assert CurrentClaim(s, b);
        ActKeepsLedger(s, b, act, id);
      case Around(event) => EventKeepsLedger(s, event, id);
    }
  }

  /** Over every run: whatever interleaves, each claim of each task is closed at most once,
      by one statement, and claims are closed in the order they were made. */
  lemma {:induction false} EveryClaimClosedOnce(s: System, steps: seq<Step>)
    requires ClaimsInOrder(s) && LeasesOwnTheirTask(s) && FreshIds(s.db)
    ensures ClaimsInOrder(Exec(s, steps))
    decreases |steps|
  {
    if steps != [] {
      FencedStep(s, steps[0]);
      LeasesKeepTheirTask(s, steps[0]);
      IdsStayFresh(s, steps[0]);
      EveryClaimClosedOnce(Apply(s, steps[0]), steps[1..]);
    }
  }

  lemma StartIsFenced(s: System)
    requires Start(s)
    ensures ClaimsInOrder(s) && LeasesOwnTheirTask(s)
  {
  }

  // ----- a lost claim -----

  predicate Lost(s: System, a: Actor) {
    PhaseOf(s, a).Working? && PhaseOf(s, a).task in s.db.tasks && !Owns(s, a)
  }

  predicate SameClaim(s: System, t: System, a: Actor) {
    PhaseOf(s, a).Working? && PhaseOf(t, a).Working?
    && PhaseOf(s, a).task == PhaseOf(t, a).task && PhaseOf(s, a).claim == PhaseOf(t, a).claim
  }

  /** An executor without its claim cannot write to any task, and does not get it back. */
  lemma {:induction false} LostActorIsPowerless(s: System, a: Actor, act: Act)
    requires Lost(s, a)
    ensures ApplyAct(s, a, act).db.tasks == s.db.tasks
    ensures !act.Leave? ==> Lost(ApplyAct(s, a, act), a) && SameClaim(s, ApplyAct(s, a, act), a)
  {
  }

  lemma {:induction false} OthersDoNotRestore(s: System, a: Actor, b: Actor, act: Act)
    requires Lost(s, a) && a != b && LeasesOwnTheirTask(s) && FreshIds(s.db)
    ensures Lost(ApplyAct(s, b, act), a) && SameClaim(s, ApplyAct(s, b, act), a)
  {
    OthersKeepPhase(s, a, b, act);
    OthersDoNotGrant(s, LockOf(a), b, act, PhaseOf(s, a).task);
  }

  // No act of an executor hands a task to a lock other than its own; leases share one lock,
  // but each lease works on a task of its own.
  lemma {:induction false} OthersDoNotGrant(s: System, lock: Locker, b: Actor, act: Act, id: TaskId)
    requires !Fenced(s.db, id, Some(lock)) && id in s.db.tasks && FreshIds(s.db)
    requires LockOf(b) != lock || b.LeaseActor?
    ensures id in ApplyAct(s, b, act).db.tasks && !Fenced(ApplyAct(s, b, act).db, id, Some(lock))
  {
  }

  lemma {:induction false} EventsDoNotRestore(s: System, a: Actor, event: Event)
    requires Lost(s, a) && FreshIds(s.db)
    ensures Lost(ApplyEvent(s, event), a) && SameClaim(s, ApplyEvent(s, event), a)
  {
  }

  // No step of `a` along the run changes the task table.
  ghost predicate Harmless(s: System, a: Actor, steps: seq<Step>)
    decreases |steps|
  {
    steps == [] || ((steps[0].By? && steps[0].actor == a ==> Apply(s, steps[0]).db.tasks == s.db.tasks)
                    && Harmless(Apply(s, steps[0]), a, steps[1..]))
  }

  /** Once a claim is lost (to the watchdog, or because the executor closed it itself), then
      until that dispatch ends, and however often others claim and finish the task again, the
      executor changes nothing in the queue. */
  lemma {:induction false} LostClaimStaysLost(s: System, a: Actor, steps: seq<Step>)
    requires Lost(s, a) && LeasesOwnTheirTask(s) && FreshIds(s.db)
    requires forall i :: 0 <= i < |steps| ==> steps[i] != By(a, Leave)
    ensures Harmless(s, a, steps)
    ensures Lost(Exec(s, steps), a) && SameClaim(s, Exec(s, steps), a)
    decreases |steps|
  {
    if steps != [] {
      var t := Apply(s, steps[0]);
      match steps[0] {
        case By(b, act) => if a == b { LostActorIsPowerless(s, a, act); } else { OthersDoNotRestore(s, a, b, act); }
        case Around(event) => EventsDoNotRestore(s, a, event);
      }
      LeasesKeepTheirTask(s, steps[0]);
      IdsStayFresh(s, steps[0]);
      LostClaimStaysLost(t, a, steps[1..]);
    }
  }

  // ----- closed tasks -----

  lemma {:induction false} FinalRowIsFrozen(s: System, step: Step, id: TaskId)
    requires FreshIds(s.db) && id in s.db.tasks && Final(s.db.tasks[id].status)
    ensures id in Apply(s, step).db.tasks && Apply(s, step).db.tasks[id] == s.db.tasks[id]
  {
    match step
    case By(a, act) => ActKeepsFinalRow(s, a, act, id);
    case Around(event) => EventKeepsFinalRow(s, event, id);
  }

  lemma {:induction false} ActKeepsFinalRow(s: System, a: Actor, act: Act, id: TaskId)
    requires FreshIds(s.db) && id in s.db.tasks && Final(s.db.tasks[id].status)
    ensures id in ApplyAct(s, a, act).db.tasks && ApplyAct(s, a, act).db.tasks[id] == s.db.tasks[id]
  {
  }

  lemma {:induction false} EventKeepsFinalRow(s: System, event: Event, id: TaskId)
    requires FreshIds(s.db) && id in s.db.tasks && Final(s.db.tasks[id].status)
    ensures id in ApplyEvent(s, event).db.tasks && ApplyEvent(s, event).db.tasks[id] == s.db.tasks[id]
  {
  }

  /** A task that is done, failed or stuck keeps its whole row in every later state. */
  lemma {:induction false} FinalForever(s: System, steps: seq<Step>, id: TaskId)
    requires FreshIds(s.db) && id in s.db.tasks && Final(s.db.tasks[id].status)
    ensures id in Exec(s, steps).db.tasks && Exec(s, steps).db.tasks[id] == s.db.tasks[id]
    decreases |steps|
  {
    if steps != [] {
      FinalRowIsFrozen(s, steps[0], id);
      IdsStayFresh(s, steps[0]);
      FinalForever(Apply(s, steps[0]), steps[1..], id);
    }
  }
}
