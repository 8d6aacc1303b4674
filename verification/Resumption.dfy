/** The usage log of one task over all its claims: what any number of failing executions
    charge and commit, whatever the rest of the system does in between. */
module Resumption {
  import opened Schema
  import opened QueueTable
  import opened System
  import opened Reserving
  import opened Pipeline
  import opened Executing

  // The operations charged for a task, in the order of the log.
  function OpsCharged(usage: seq<UsageRow>, id: TaskId): seq<OpId> {
    if usage == [] then []
    else
      var last := usage[|usage| - 1];
      OpsCharged(usage[..|usage| - 1], id) + if last.task == id then [last.op] else []
  }

  function OpIds(steps: seq<TypeOp>): seq<OpId> {
    seq(|steps|, i requires 0 <= i < |steps| => steps[i].opId)
  }

  lemma {:induction false} PaidRowsAreCharges(usage: seq<UsageRow>, rest: seq<TypeOp>, n: nat, account: AccountId,
                                              id: TaskId, now: Time)
    requires n <= |rest|
    ensures OpsCharged(usage + PaidRows(rest, n, account, id, now), id) == OpsCharged(usage, id) + OpIds(rest[..n])
  {
    if n == 0 {
      assert usage + PaidRows(rest, 0, account, id, now) == usage;
    } else {
      PaidRowsAreCharges(usage, rest, n - 1, account, id, now);
      var all := usage + PaidRows(rest, n, account, id, now);
      assert all[..|all| - 1] == usage + PaidRows(rest, n - 1, account, id, now);
      assert OpIds(rest[..n]) == OpIds(rest[..n - 1]) + [rest[n - 1].opId];
    }
  }

  /** The log and the row show what the task's pipeline has done so far. */
  ghost predicate Shows(db: Db, id: TaskId, st: Progress) {
    && id in db.tasks && db.tasks[id].payload.lastCompletedStep == st.last
    && OpsCharged(db.usage, id) == OpIds(st.charged)
  }

  lemma RunIsRecorded(db: Db, steps: seq<TypeOp>, st: Progress, run: Run, account: AccountId, id: TaskId,
                      lock: Option<Locker>)
    requires Fenced(db, id, lock) && db.tasks[id].payload.lastCompletedStep == st.last
    ensures var after := AfterRun(db, Remaining(steps, st.last), run, account, id, lock);
      && Fenced(after, id, lock)
      && after.tasks[id].payload.lastCompletedStep == Pipeline.Retry(steps, st, run).last
  {
    var rest := Remaining(steps, st.last);
    RunnerRealisesRunFrom(rest, st, run);
    RunLeavesStep(db, rest, run, account, id, lock);
  }

  lemma OpIdsJoin(x: seq<TypeOp>, y: seq<TypeOp>)
    ensures OpIds(x + y) == OpIds(x) + OpIds(y)
  {
  }

  lemma RunPays(db: Db, rest: seq<TypeOp>, run: Run, account: AccountId, id: TaskId, lock: Option<Locker>)
    ensures AfterRun(db, rest, run, account, id, lock).usage
         == db.usage + PaidRows(rest, ChargedBy(|rest|, run), account, id, db.now)
  {
  }

  lemma RunIsCharged(db: Db, steps: seq<TypeOp>, st: Progress, run: Run, account: AccountId, id: TaskId,
                     lock: Option<Locker>)
    requires OpsCharged(db.usage, id) == OpIds(st.charged)
    ensures OpsCharged(AfterRun(db, Remaining(steps, st.last), run, account, id, lock).usage, id)
         == OpIds(Pipeline.Retry(steps, st, run).charged)
  {
    var rest := Remaining(steps, st.last);
    var paid := ChargedBy(|rest|, run);
    RunnerRealisesRunFrom(rest, st, run);
    RunPays(db, rest, run, account, id, lock);
    PaidRowsAreCharges(db.usage, rest, paid, account, id, db.now);
    OpIdsJoin(st.charged, rest[..paid]);
  }

  /** One run under a claim in force: it starts where the row says, and afterwards the row and
      the log show what it did. */
  lemma RunIsShown(db: Db, steps: seq<TypeOp>, st: Progress, run: Run, account: AccountId, id: TaskId,
                   lock: Option<Locker>)
    requires Fenced(db, id, lock) && Shows(db, id, st)
    ensures var after := AfterRun(db, Remaining(steps, db.tasks[id].payload.lastCompletedStep), run, account, id, lock);
      Fenced(after, id, lock) && Shows(after, id, Pipeline.Retry(steps, st, run))
  {
    RunIsRecorded(db, steps, st, run, account, id, lock);
    RunIsCharged(db, steps, st, run, account, id, lock);
  }

  // Nothing was charged or committed for the task.
  ghost predicate Untouched(x: Db, y: Db, id: TaskId) {
    && id in x.tasks && id in y.tasks
    && y.tasks[id].payload.lastCompletedStep == x.tasks[id].payload.lastCompletedStep
    && OpsCharged(y.usage, id) == OpsCharged(x.usage, id)
  }

  // An executor of the task charges it or commits one of its steps.
  predicate WorksOn(s: System, step: Step, id: TaskId) {
    step.By? && PhaseOf(s, step.actor).Working? && PhaseOf(s, step.actor).task == id
    && (step.act.ChargeOp? || step.act.ChargeUnchecked? || step.act.CommitStep?)
  }

  lemma {:induction false} ActLeavesProgress(s: System, a: Actor, act: Act, id: TaskId)
    requires id in s.db.tasks && FreshIds(s.db) && !WorksOn(s, By(a, act), id)
    ensures Untouched(s.db, ApplyAct(s, a, act).db, id)
  {
    if act.ChargeOp? || act.ChargeUnchecked? {
      var after := ApplyAct(s, a, act).db.usage;
      assert after != s.db.usage ==> after[..|after| - 1] == s.db.usage;
    } else {
      OtherActsLeaveLog(s, a, act);
      OtherActsLeaveStep(s, a, act, id);
    }
  }

  lemma {:induction false} OtherActsLeaveLog(s: System, a: Actor, act: Act)
    requires !act.ChargeOp? && !act.ChargeUnchecked?
    ensures ApplyAct(s, a, act).db.usage == s.db.usage
  {
  }

  lemma {:induction false} OtherActsLeaveStep(s: System, a: Actor, act: Act, id: TaskId)
    requires id in s.db.tasks && FreshIds(s.db)
    requires act.CommitStep? && PhaseOf(s, a).Working? ==> PhaseOf(s, a).task != id
    ensures var after := ApplyAct(s, a, act).db;
      id in after.tasks && after.tasks[id].payload.lastCompletedStep == s.db.tasks[id].payload.lastCompletedStep
  {
    if act.CommitStep? || act.Assign? || MovesTask(act) {
      WritingLeavesStep(s, a, act, id);
    } else {
      WritesNoTask(s, a, act);
    }
  }

  lemma {:induction false} WritingLeavesStep(s: System, a: Actor, act: Act, id: TaskId)
    requires id in s.db.tasks && FreshIds(s.db) && (act.CommitStep? || act.Assign? || MovesTask(act))
    requires act.CommitStep? && PhaseOf(s, a).Working? ==> PhaseOf(s, a).task != id
    ensures var after := ApplyAct(s, a, act).db;
      id in after.tasks && after.tasks[id].payload.lastCompletedStep == s.db.tasks[id].payload.lastCompletedStep
  {
  }

  lemma {:induction false} EventLeavesProgress(s: System, event: Event, id: TaskId)
    requires id in s.db.tasks && FreshIds(s.db)
    ensures Untouched(s.db, ApplyEvent(s, event).db, id)
  {
  }

  ghost predicate NobodyWorksOn(s: System, steps: seq<Step>, id: TaskId)
    decreases |steps|
  {
    steps == [] || (!WorksOn(s, steps[0], id) && NobodyWorksOn(Apply(s, steps[0]), steps[1..], id))
  }

  /** Whatever the system does between two executions of a task (closings, postpones, watchdog
      retries, new claims, dispatches of other tasks), the second finds the log and the
      recorded step as the first left them, unless an executor of the task, current or
      stale, charges or commits meanwhile. */
  lemma {:induction false} BetweenExecutions(s: System, steps: seq<Step>, id: TaskId)
    requires id in s.db.tasks && FreshIds(s.db) && NobodyWorksOn(s, steps, id)
    ensures Untouched(s.db, Exec(s, steps).db, id)
    decreases |steps|
  {
    if steps != [] {
      match steps[0] {
        case By(a, act) => ActLeavesProgress(s, a, act, id);
        case Around(event) => EventLeavesProgress(s, event, id);
      }
      IdsStayFresh(s, steps[0]);
      BetweenExecutions(Apply(s, steps[0]), steps[1..], id);
    }
  }

  /** One execution of the task: the tables it found, the account and the lock it worked
      under, and how its run ended. */
  datatype Execution = Execution(before: Db, account: AccountId, lock: Option<Locker>, run: Run)

  function AfterExecution(x: Execution, steps: seq<TypeOp>, id: TaskId): Db
    requires id in x.before.tasks
  {
    AfterRun(x.before, Remaining(steps, x.before.tasks[id].payload.lastCompletedStep), x.run, x.account, id, x.lock)
  }

  /** Successive executions of a new task, each under a claim in force. */
  ghost predicate Successive(xs: seq<Execution>, steps: seq<TypeOp>, id: TaskId) {
    && (forall i :: 0 <= i < |xs| ==> Fenced(xs[i].before, id, xs[i].lock))
    && (xs != [] ==> Shows(xs[0].before, id, NOTHING_DONE))
    && forall i :: 0 < i < |xs| ==> Untouched(AfterExecution(xs[i - 1], steps, id), xs[i].before, id)
  }

  function RunsOf(xs: seq<Execution>): (runs: seq<Run>)
    ensures |runs| == |xs| && forall i :: 0 <= i < |xs| ==> runs[i] == xs[i].run
  {
    seq(|xs|, i requires 0 <= i < |xs| => xs[i].run)
  }

  function HistoryOf(steps: seq<TypeOp>, runs: seq<Run>): (history: seq<Progress>)
    ensures |history| == |runs| + 1
  {
    if runs == [] then [NOTHING_DONE]
    else
      var before := HistoryOf(steps, runs[..|runs| - 1]);
      before + [Pipeline.Retry(steps, before[|runs| - 1], runs[|runs| - 1])]
  }

  lemma {:induction false} HistoryIsOne(steps: seq<TypeOp>, runs: seq<Run>)
    ensures IsHistory(steps, runs, HistoryOf(steps, runs))
  {
    if runs != [] {
      HistoryIsOne(steps, runs[..|runs| - 1]);
    }
  }

  lemma {:induction false} ExecutionsAreRuns(xs: seq<Execution>, steps: seq<TypeOp>, id: TaskId, history: seq<Progress>,
                                             k: nat)
    requires Successive(xs, steps, id) && IsHistory(steps, RunsOf(xs), history) && 1 <= k <= |xs|
    ensures Shows(AfterExecution(xs[k - 1], steps, id), id, history[k])
  {
    var x := xs[k - 1];
    if k > 1 {
      ExecutionsAreRuns(xs, steps, id, history, k - 1);
      assert Untouched(AfterExecution(xs[k - 2], steps, id), x.before, id);
    }
    RunIsShown(x.before, steps, history[k - 1], x.run, x.account, id, x.lock);
    assert history[k - 1 + 1] == Pipeline.Retry(steps, history[k - 1], RunsOf(xs)[k - 1]);
  }

  /** What the row and the log say after executions whose runs took the books to `done` steps
      and these charges. */
  ghost predicate LogSays(after: Db, id: TaskId, steps: seq<TypeOp>, done: nat, times: seq<nat>) {
    && done <= |steps| && |times| == |steps| && id in after.tasks
    && OpsCharged(after.usage, id) == OpIds(Trace(steps, times, if done < |steps| then done + 1 else done))
    && after.tasks[id].payload.lastCompletedStep == LastStep(steps, done)
  }

  lemma ExecutionsResume(steps: seq<TypeOp>, xs: seq<Execution>, id: TaskId) returns (times: seq<nat>)
    requires xs != [] && Successive(xs, steps, id) && DistinctCodes(steps) && Named(steps)
    ensures TimesAre(|steps|, RunsOf(xs), |xs|, times)
    ensures LogSays(AfterExecution(xs[|xs| - 1], steps, id), id, steps, DoneBefore(|steps|, RunsOf(xs), |xs|), times)
  {
    var history := HistoryOf(steps, RunsOf(xs));
    HistoryIsOne(steps, RunsOf(xs));
    times := RetriesResume(steps, RunsOf(xs), history, |xs|);
    ExecutionsAreRuns(xs, steps, id, history, |xs|);
  }

  /** What the usage log says after any number of claims of one task: for a type's own
      pipeline the log holds, in pipeline order, one charge of each committed step and one for
      each run that charged a step and failed at it, and the row names the last step committed. */
  lemma ClaimsResume(tt: TaskType, xs: seq<Execution>, id: TaskId) returns (times: seq<nat>)
    requires xs != [] && Successive(xs, PipelineOf(tt), id)
    ensures TimesAre(|PipelineOf(tt)|, RunsOf(xs), |xs|, times)
    ensures LogSays(AfterExecution(xs[|xs| - 1], PipelineOf(tt), id), id, PipelineOf(tt),
                    DoneBefore(|PipelineOf(tt)|, RunsOf(xs), |xs|), times)
  {
    TypePipelineIsSound(tt);
    times := ExecutionsResume(PipelineOf(tt), xs, id);
  }

  /** What a dispatch does between its counted attempt and its closing, for the task types with
      a pipeline, is such an execution; one that fails validation is a run refused before its
      first step. */
  lemma ExecutedIsAnExecution(begun: Db, after: Db, task: ClaimedTask, tt: TaskType, exec: AccountId,
                              byRole: map<Role, AccountId>, script: Script, raised: Option<Raised>)
    requires IsMultiOp(tt.code) && Executed(begun, after, task, tt, exec, byRole, script, raised)
    requires task.id in begun.tasks && begun.tasks[task.id].payload.lastCompletedStep == task.lastStep
    ensures var run := if script.validation.Some? then Run(0, false) else RunOf(StepsLeft(tt, task.lastStep), script);
      after == AfterExecution(Execution(begun, exec, Some(task.lock), run), PipelineOf(tt), task.id)
  {
    assert begun.usage + [] == begun.usage;
  }

  // ----- what the tables show of an attempt -----

  // The operations of these steps have different ids.
  predicate DistinctIds(steps: seq<TypeOp>) {
    forall i, j :: 0 <= i < j < |steps| ==> steps[i].opId != steps[j].opId
  }

  lemma LaterRowsOnly(rows: seq<UsageRow>, steps: seq<TypeOp>, from: nat, to: nat, exec: AccountId, id: TaskId,
                      now: Time, i: nat)
    requires i < from <= to <= |steps| && DistinctIds(steps) && StepRows(rows, steps[from..to], exec, id, now)
    ensures forall row :: row in rows ==> row.op != steps[i].opId
  {
    forall k | 0 <= k < |rows| ensures rows[k].op != steps[i].opId {
      assert rows[k].op == steps[from..to][k].opId == steps[from + k].opId;
    }
  }

  // The charges of an attempt at a task with a pipeline, none if validation fails.
  ghost predicate PipelinePaid(x: Db, y: Db, id: TaskId, tt: TaskType, exec: AccountId, script: Script)
    requires id in x.tasks && id in y.tasks
  {
    if script.validation.Some? then y.usage == x.usage && StepStays(x, y, id)
    else StepsPaid(x, y, id, PipelineOf(tt), x.tasks[id].payload.lastCompletedStep, exec, script)
  }

  // The step at position p of operations with different ids is the recorded one.
  ghost predicate RecordedAt(steps: seq<TypeOp>, last: Option<string>, p: nat) {
    p < |steps| && last == Some(steps[p].opCode) && DistinctIds(steps)
  }

  // No step up to position p gained a usage row.
  ghost predicate PaidOnlyAfter(x: Db, y: Db, steps: seq<TypeOp>, p: nat)
    requires p < |steps|
  {
    x.usage <= y.usage && forall row, i :: row in y.usage[|x.usage|..] && 0 <= i <= p ==> row.op != steps[i].opId
  }

  /** A resumed attempt pays for no step up to the recorded one. */
  lemma EarlierStepsUnpaid(x: Db, y: Db, id: TaskId, tt: TaskType, p: nat, exec: AccountId, script: Script)
    requires id in x.tasks && id in y.tasks && RecordedAt(PipelineOf(tt), x.tasks[id].payload.lastCompletedStep, p)
    requires PipelinePaid(x, y, id, tt, exec, script)
    ensures PaidOnlyAfter(x, y, PipelineOf(tt), p)
  {
    var steps := PipelineOf(tt);
    if script.validation.None? {
      TypePipelineIsSound(tt);
      assert steps[p] in steps && HasStep(steps, steps[p].opCode);
      var from: nat :| ResumesAt(steps, Some(steps[p].opCode), from) && StepsRan(x, y, id, steps, from, exec, script);
      assert from == p + 1;
      forall i: nat | i <= p ensures forall row :: row in y.usage[|x.usage|..] ==> row.op != steps[i].opId {
        LaterRowsOnly(y.usage[|x.usage|..], steps, from, from + |y.usage| - |x.usage|, exec, id, x.now, i);
      }
    }
  }

  /** An attempt at a task with a pipeline is one of the executions the resumption theorem is
      about: it starts from the row's own recorded step, and log and row show what its run did. */
  lemma AttemptIsAnExecution(x: Db, y: Db, id: TaskId, lock: Option<Locker>, tt: TaskType, exec: AccountId,
                             script: Script)
    returns (e: Execution)
    requires Fenced(x, id, lock) && id in y.tasks && PipelinePaid(x, y, id, tt, exec, script)
    ensures e.before == x && e.account == exec && e.lock == lock
    ensures Untouched(AfterExecution(e, PipelineOf(tt), id), y, id)
  {
    var steps, last := PipelineOf(tt), x.tasks[id].payload.lastCompletedStep;
    var again := RemainingResumes(steps, last);
    if script.validation.Some? {
      e := Execution(x, exec, lock, Run(0, false));
      assert x.usage + [] == x.usage;
    } else {
      var from: nat :| ResumesAt(steps, last, from) && StepsRan(x, y, id, steps, from, exec, script);
      SameResumption(steps, last, from, again);
      e := Execution(x, exec, lock, RunOf(steps[from..], script));
      RunIsPaid(x, y, id, lock, steps, from, exec, script);
    }
  }

  lemma SameResumption(steps: seq<TypeOp>, last: Option<string>, a: nat, b: nat)
    requires ResumesAt(steps, last, a) && ResumesAt(steps, last, b)
    ensures a == b
  {
  }

  lemma RunIsPaid(x: Db, y: Db, id: TaskId, lock: Option<Locker>, steps: seq<TypeOp>, from: nat, exec: AccountId,
                  script: Script)
    requires Fenced(x, id, lock) && id in y.tasks && from <= |steps|
    requires StepsRan(x, y, id, steps, from, exec, script)
    ensures var rest := steps[from..];
      Untouched(AfterRun(x, rest, RunOf(rest, script), exec, id, lock), y, id)
  {
    RunLeavesStep(x, steps[from..], RunOf(steps[from..], script), exec, id, lock);
    RowsAreThoseOfRun(x, y, id, lock, steps, from, exec, script);
  }

  lemma RowsAreThoseOfRun(x: Db, y: Db, id: TaskId, lock: Option<Locker>, steps: seq<TypeOp>, from: nat,
                          exec: AccountId, script: Script)
    requires id in x.tasks && id in y.tasks && from <= |steps| && StepsRan(x, y, id, steps, from, exec, script)
    ensures AfterRun(x, steps[from..], RunOf(steps[from..], script), exec, id, lock).usage == y.usage
  {
    var rest := steps[from..];
    var run := RunOf(rest, script);
    var after, paid := AfterRun(x, rest, run, exec, id, lock), ChargedBy(|rest|, run);
    RunLeavesRows(x, rest, run, exec, id, lock);
    assert steps[from..from + paid] == rest[..paid];
    StepRowsAreOne(y.usage[|x.usage|..], after.usage[|x.usage|..], rest[..paid], exec, id, x.now);
    assert y.usage == x.usage + y.usage[|x.usage|..] && after.usage == x.usage + after.usage[|x.usage|..];
  }
}
