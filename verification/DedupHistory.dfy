/** Deduplication: one active task per key, always the newest of its key; and what a fatal
    failure of the newest task means for later enqueues. */
module DedupHistory {
  import opened Schema
  import opened ErrorCodes
  import opened QueueTable
  import opened System
  import opened Fencing
  import opened Enqueueing

  // If `id` is active, `other` of the same key is not newer.
  predicate NotOutrun(db: Db, id: TaskId, other: TaskId) {
    (id in db.tasks && other in db.tasks && db.tasks[id].dedupKey.Some?
     && db.tasks[id].dedupKey == db.tasks[other].dedupKey
     && Active(db.tasks[id].status)) ==> other <= id
  }

  ghost predicate ActiveIsNewest(db: Db) {
    forall id: TaskId, other: TaskId :: NotOutrun(db, id, other)
  }

  lemma {:induction false} ActKeepsNewest(s: System, a: Actor, act: Act, id: TaskId, other: TaskId)
    requires NotOutrun(s.db, id, other) && FreshIds(s.db)
    ensures NotOutrun(ApplyAct(s, a, act).db, id, other)
  {
    if act.OpenLease? && id in s.db.tasks && s.db.tasks[id].dedupKey == Some(act.key) {
      assert HoldsKey(s.db, id, act.key);
    }
  }

  lemma {:induction false} EventKeepsNewest(s: System, event: Event, id: TaskId, other: TaskId)
    requires NotOutrun(s.db, id, other) && FreshIds(s.db)
    ensures NotOutrun(ApplyEvent(s, event).db, id, other)
  {
    if event.EnqueueInsert? && event.call in s.pending && s.pending[event.call].dedupKey.Some? {
      assert ActiveWithKey(s.db, id, s.pending[event.call].dedupKey.value)
         ==> KeyTaken(s.db, s.pending[event.call].dedupKey);
    }
  }

  /** In every state the queue's own steps reach, an active task is the newest of its key. */
  lemma {:induction false} ActiveTaskIsNewest(s: System, steps: seq<Step>)
    requires ActiveIsNewest(s.db) && FreshIds(s.db)
    ensures ActiveIsNewest(Exec(s, steps).db)
    decreases |steps|
  {
    if steps != [] {
      var t := Apply(s, steps[0]);
      forall id: TaskId, other: TaskId ensures NotOutrun(t.db, id, other) {
        assert NotOutrun(s.db, id, other);
        match steps[0]
        case By(a, act) => ActKeepsNewest(s, a, act, id, other);
        case Around(event) => EventKeepsNewest(s, event, id, other);
      }
      IdsStayFresh(s, steps[0]);
      ActiveTaskIsNewest(t, steps[1..]);
    }
  }

  /** Hence one active task per key, and the two reasons to refuse an enqueue exclude each other. */
  lemma OneActivePerKey(db: Db, key: string)
    requires ActiveIsNewest(db)
    ensures forall id: TaskId, other: TaskId ::
      ActiveWithKey(db, id, key) && ActiveWithKey(db, other, key) ==> id == other
    ensures !(HasFatalHistory(db, Some(key)) && KeyTaken(db, Some(key)))
  {
    forall id: TaskId, other: TaskId | ActiveWithKey(db, id, key) && HoldsKey(db, other, key)
      ensures other <= id
    {
      assert NotOutrun(db, id, other);
    }
  }

  // ----- fatal history -----

  // An enqueue call that has passed its history check is about to insert this key.
  predicate AboutToInsert(s: System, call: nat, key: string) {
    call in s.pending && s.pending[call].dedupKey == Some(key) && s.pending[call].typeCode in s.db.types
  }

  predicate InsertsKey(s: System, step: Step, key: string) {
    step.Around? && step.event.EnqueueInsert? && AboutToInsert(s, step.event.call, key)
  }

  lemma {:induction false} ActKeepsFatal(s: System, a: Actor, act: Act, id: TaskId, key: string)
    requires FatalHistory(s.db, id, key) && FreshIds(s.db)
    ensures FatalHistory(ApplyAct(s, a, act).db, id, key)
  {
    var t := ApplyAct(s, a, act);
    ActKeepsFinalRow(s, a, act, id);
    forall other: TaskId | HoldsKey(t.db, other, key) ensures other <= id {
      ActAddsNoKey(s, a, act, id, other, key);
    }
  }

  lemma {:induction false} ActAddsNoKey(s: System, a: Actor, act: Act, id: TaskId, other: TaskId, key: string)
    requires HoldsKey(s.db, id, key) && HoldsKey(ApplyAct(s, a, act).db, other, key)
    ensures HoldsKey(s.db, other, key)
  {
  }

  lemma {:induction false} EventKeepsFatal(s: System, event: Event, id: TaskId, key: string)
    requires FatalHistory(s.db, id, key) && FreshIds(s.db) && !InsertsKey(s, Around(event), key)
    ensures FatalHistory(ApplyEvent(s, event).db, id, key)
  {
    var t := ApplyEvent(s, event);
    EventKeepsFinalRow(s, event, id);
    forall other: TaskId | HoldsKey(t.db, other, key) ensures other <= id {
      EventAddsNoKey(s, event, other, key);
    }
  }

  lemma {:induction false} EventAddsNoKey(s: System, event: Event, other: TaskId, key: string)
    requires !InsertsKey(s, Around(event), key) && HoldsKey(ApplyEvent(s, event).db, other, key)
    ensures HoldsKey(s.db, other, key)
  {
  }

  lemma {:induction false} InsertEndsFatal(s: System, call: nat, id: TaskId, key: string)
    requires FatalHistory(s.db, id, key) && FreshIds(s.db) && ActiveIsNewest(s.db) && AboutToInsert(s, call, key)
    ensures var t := ApplyEvent(s, EnqueueInsert(call));
      ActiveWithKey(t.db, s.db.nextTask, key) && !FatalHistory(t.db, id, key)
  {
    NoActiveBesideFatal(s.db, id, key);
    InsertTakesFreeKey(s, call, id, key);
    assert !IsNewest(ApplyEvent(s, EnqueueInsert(call)).db, id, key);
  }

  lemma NoActiveBesideFatal(db: Db, id: TaskId, key: string)
    requires FatalHistory(db, id, key) && ActiveIsNewest(db)
    ensures !KeyTaken(db, Some(key))
  {
    forall other: TaskId ensures !ActiveWithKey(db, other, key) {
      assert NotOutrun(db, other, id);
    }
  }

  lemma {:induction false} InsertTakesFreeKey(s: System, call: nat, id: TaskId, key: string)
    requires FreshIds(s.db) && AboutToInsert(s, call, key) && !KeyTaken(s.db, Some(key)) && id in s.db.tasks
    ensures var t := ApplyEvent(s, EnqueueInsert(call));
      ActiveWithKey(t.db, s.db.nextTask, key) && HoldsKey(t.db, s.db.nextTask, key) && s.db.nextTask > id
  {
  }

  /** A fatal history ends at a step exactly when the step is the insert of an enqueue call
      whose history check came earlier. */
  lemma {:induction false} FatalHistoryEndsIff(s: System, step: Step, id: TaskId, key: string)
    requires FatalHistory(s.db, id, key) && FreshIds(s.db) && ActiveIsNewest(s.db)
    ensures FatalHistory(Apply(s, step).db, id, key) <==> !InsertsKey(s, step, key)
  {
    match step
    case By(a, act) => ActKeepsFatal(s, a, act, id, key);
    case Around(event) =>
      if InsertsKey(s, step, key) {
        InsertEndsFatal(s, event.call, id, key);
      } else {
        EventKeepsFatal(s, event, id, key);
      }
  }

  predicate ChecksKey(step: Step, key: string) {
    step.Around? && step.event.EnqueueCheck? && step.event.item.dedupKey == Some(key)
  }

  // Every enqueue of the key asks for the history check.
  predicate AlwaysChecked(steps: seq<Step>, key: string) {
    forall i :: 0 <= i < |steps| && ChecksKey(steps[i], key) ==> steps[i].event.skipKnownFatal
  }

  ghost predicate NoneAboutToInsert(s: System, key: string) {
    forall call :: call in s.pending ==> s.pending[call].dedupKey != Some(key)
  }

  lemma {:induction false} NoneGetsReady(s: System, step: Step, id: TaskId, key: string)
    requires NoneAboutToInsert(s, key) && FatalHistory(s.db, id, key) && key != ""
    requires ChecksKey(step, key) ==> step.event.skipKnownFatal
    ensures NoneAboutToInsert(Apply(s, step), key)
  {
    assert HasFatalHistory(s.db, Some(key));
    match step
    case By(a, act) => ActsLeavePending(s, a, act);
    case Around(event) => CheckedEventsAddNone(s, event, key);
  }

  lemma {:induction false} ActsLeavePending(s: System, a: Actor, act: Act)
    ensures ApplyAct(s, a, act).pending == s.pending
  {
  }

  lemma {:induction false} CheckedEventsAddNone(s: System, event: Event, key: string)
    requires NoneAboutToInsert(s, key) && HasFatalHistory(s.db, Some(key))
    requires ChecksKey(Around(event), key) ==> event.skipKnownFatal
    ensures NoneAboutToInsert(ApplyEvent(s, event), key)
  {
  }

  /** Once the newest task of a key failed fatally, and no call that checked before is still
      to insert, then over every run of checked enqueues the key is never created again. */
  lemma {:induction false} FatalKeyStaysClosed(s: System, steps: seq<Step>, id: TaskId, key: string)
    requires key != "" && FatalHistory(s.db, id, key) && FreshIds(s.db)
    requires NoneAboutToInsert(s, key) && AlwaysChecked(steps, key)
    ensures FatalHistory(Exec(s, steps).db, id, key)
    decreases |steps|
  {
    if steps != [] {
      var t := Apply(s, steps[0]);
      match steps[0] {
        case By(a, act) => ActKeepsFatal(s, a, act, id, key);
        case Around(event) =>
          EventKeepsFatal(s, event, id, key);
          assert ChecksKey(steps[0], key) ==> event.skipKnownFatal;
      }
      NoneGetsReady(s, steps[0], id, key);
      IdsStayFresh(s, steps[0]);
      FatalKeyStaysClosed(t, steps[1..], id, key);
    }
  }

  /** The window is real: the check runs while the task is in progress, the task then fails
      fatally, and the insert goes through although the call asked to skip fatal keys. */
  lemma {:induction false} CheckedEnqueueCanRace(s: System, a: Actor, call: nat, item: NewTask, error: Option<string>,
                                                 key: string)
    requires Busy(s, a) && Owns(s, a) && HoldsKey(s.db, PhaseOf(s, a).task, key) && key != ""
    requires ActiveIsNewest(s.db) && FreshIds(s.db) && IsFatal(error)
    requires call !in s.pending && item.dedupKey == Some(key) && TypeEnabled(s.db, item.typeCode)
    ensures var s1 := Apply(s, Around(EnqueueCheck(call, item, true)));
      var s2 := Apply(s1, By(a, Finish(Failing(error))));
      var s3 := Apply(s2, Around(EnqueueInsert(call)));
      && FatalHistory(s2.db, PhaseOf(s, a).task, key)
      && ActiveWithKey(s3.db, s2.db.nextTask, key)
  {
    var id := PhaseOf(s, a).task;
    OneActivePerKey(s.db, key);
    assert ActiveWithKey(s.db, id, key);
    var s1 := Apply(s, Around(EnqueueCheck(call, item, true)));
    assert s1 == s.(pending := s.pending[call := item]);
    FailingMakesFatal(s1, a, Failing(error), error, key);
    InsertEndsFatal(Apply(s1, By(a, Finish(Failing(error)))), call, id, key);
  }

  // The statement closes the task as failed, with this error.
  predicate FailsWith(t: Task, how: Finisher, error: Option<string>) {
    how == Failing(error) || (how.Rescheduling? && how.error == error && AttemptsExhausted(t))
  }

  // Closing the newest task of a key leaves it the newest, failed with its error.
  lemma {:induction false} FailingCloses(s: System, a: Actor, how: Finisher, error: Option<string>, key: string)
    requires Busy(s, a) && Owns(s, a) && HoldsKey(s.db, PhaseOf(s, a).task, key)
    requires FailsWith(s.db.tasks[PhaseOf(s, a).task], how, error)
    requires ActiveIsNewest(s.db)
    ensures var t, id := ApplyAct(s, a, Finish(how)), PhaseOf(s, a).task;
      && IsNewest(t.db, id, key) && t.db.tasks[id].status.Failed? && t.db.tasks[id].lastError == error
  {
    var id, t := PhaseOf(s, a).task, ApplyAct(s, a, Finish(how));
    forall other: TaskId | HoldsKey(t.db, other, key) ensures other <= id {
      assert NotOutrun(s.db, id, other);
    }
  }

  lemma {:induction false} FailingMakesFatal(s: System, a: Actor, how: Finisher, error: Option<string>, key: string)
    requires Busy(s, a) && Owns(s, a) && HoldsKey(s.db, PhaseOf(s, a).task, key) && IsFatal(error)
    requires FailsWith(s.db.tasks[PhaseOf(s, a).task], how, error)
    requires ActiveIsNewest(s.db) && FreshIds(s.db)
    ensures var t := ApplyAct(s, a, Finish(how));
      && FatalHistory(t.db, PhaseOf(s, a).task, key) && ActiveIsNewest(t.db) && FreshIds(t.db)
      && t.pending == s.pending && t.db.types == s.db.types
  {
    FailingCloses(s, a, how, error, key);
    FinishKeepsSound(s, a, how);
    FailedIsFatal(ApplyAct(s, a, Finish(how)).db, PhaseOf(s, a).task, error, key);
  }

  lemma FailedIsFatal(db: Db, id: TaskId, error: Option<string>, key: string)
    requires IsNewest(db, id, key) && db.tasks[id].status.Failed? && db.tasks[id].lastError == error && IsFatal(error)
    ensures FatalHistory(db, id, key)
  {
  }

  lemma {:induction false} FinishKeepsSound(s: System, a: Actor, how: Finisher)
    requires ActiveIsNewest(s.db) && FreshIds(s.db)
    ensures var t := ApplyAct(s, a, Finish(how));
      ActiveIsNewest(t.db) && FreshIds(t.db) && t.pending == s.pending && t.db.types == s.db.types
  {
    var t := ApplyAct(s, a, Finish(how));
    ActKeepsIdsFresh(s, a, Finish(how));
    forall x: TaskId, y: TaskId ensures NotOutrun(t.db, x, y) {
      ActKeepsNewest(s, a, Finish(how), x, y);
    }
  }

  /** Disabling a type is not reversible for its tasks: a worker that meets a task of a
      disabled type with no attempts left fails it under a fatal code, and then, type enabled
      again or not, no checked enqueue ever creates its key again. */
  lemma {:induction false} DisabledTypeClosesKey(s: System, a: Actor, delay: int, key: string, steps: seq<Step>)
    requires Busy(s, a) && Owns(s, a) && HoldsKey(s.db, PhaseOf(s, a).task, key) && key != ""
    requires AttemptsExhausted(s.db.tasks[PhaseOf(s, a).task])
    requires ActiveIsNewest(s.db) && FreshIds(s.db) && NoneAboutToInsert(s, key) && AlwaysChecked(steps, key)
    ensures var error := Some("unknown_task_type" + ":" + s.db.tasks[PhaseOf(s, a).task].typeCode);
      var t := ApplyAct(s, a, Finish(Rescheduling(error, delay)));
      FatalHistory(Exec(t, steps).db, PhaseOf(s, a).task, key)
  {
    var error := Some("unknown_task_type" + ":" + s.db.tasks[PhaseOf(s, a).task].typeCode);
    UnknownTypeIsFatal(s.db.tasks[PhaseOf(s, a).task].typeCode);
    FailingMakesFatal(s, a, Rescheduling(error, delay), error, key);
    FatalKeyStaysClosed(ApplyAct(s, a, Finish(Rescheduling(error, delay))), steps, PhaseOf(s, a).task, key);
  }

  /** An enqueue is two events, its history check and its insert; with nothing in between they
      store what the enqueue stores. */
  lemma {:induction false} EnqueueIsTwoEvents(s: System, call: nat, item: NewTask, skip: bool)
    requires call !in s.pending
    ensures var checked := Apply(s, Around(EnqueueCheck(call, item, skip)));
      Apply(checked, Around(EnqueueInsert(call))).db == EnqueueDb(s.db, item, skip)
  {
    if item.dedupKey.Some? {
      LookupFindsHistory(s.db, item.dedupKey.value);
    }
    assert SkipsOne(s.db, item, skip) <==> skip && HasFatalHistory(s.db, item.dedupKey);
  }
}
