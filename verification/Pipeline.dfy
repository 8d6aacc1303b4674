/** The resumable per-operation pipeline: each operation is charged, executed and committed;
    a retry starts after the last committed one. */
module Pipeline {
  import opened Schema
  import opened QueueTable
  import opened UsageLog
  import opened Repositories

  const FULL_PIPELINE: seq<string> := [
    "get_entity", "channels.JoinChannel", "channels.GetFullChannel", "iter_messages",
    "channels.GetParticipants", "channels.LeaveChannel"
  ]

  // The task types that meter themselves step by step, with their catalogued order.
  function Catalog(code: string): seq<string> {
    if code == "collect_extra_data" || code == "update_channel" then FULL_PIPELINE else []
  }

  predicate IsMultiOp(code: string) {
    code == "collect_extra_data" || code == "update_channel"
  }

  // A dict from code to enabled operation: the last row of a code wins.
  function LastEnabled(ops: seq<TypeOp>, code: string): Option<TypeOp> {
    if ops == [] then None
    else
      var last := ops[|ops| - 1];
      if last.enabled && last.opCode == code then Some(last) else LastEnabled(ops[..|ops| - 1], code)
  }

  function OrderedPipeline(catalog: seq<string>, ops: seq<TypeOp>): seq<TypeOp> {
    if catalog == [] then []
    else
      var op := LastEnabled(ops, catalog[0]);
      (if op.Some? then [op.value] else []) + OrderedPipeline(catalog[1..], ops)
  }

  function PositionOf(steps: seq<TypeOp>, code: string): (p: Option<nat>)
    ensures p.Some? ==> p.value < |steps| && steps[p.value].opCode == code
                        && forall i :: 0 <= i < p.value ==> steps[i].opCode != code
    ensures p.None? ==> forall i :: 0 <= i < |steps| ==> steps[i].opCode != code
  {
    if steps == [] then None
    else if steps[0].opCode == code then Some(0)
    else
      var p := PositionOf(steps[1..], code);
      if p.Some? then Some(p.value + 1) else None
  }

  // An unknown or empty last step restarts the whole pipeline.
  function Remaining(steps: seq<TypeOp>, last: Option<string>): seq<TypeOp> {
    if last.None? || last.value == "" then steps
    else
      var p := PositionOf(steps, last.value);
      if p.Some? then steps[p.value + 1..] else steps
  }

  ghost predicate DistinctCodes(steps: seq<TypeOp>) {
    forall i, j :: 0 <= i < j < |steps| ==> steps[i].opCode != steps[j].opCode
  }

  ghost predicate Named(steps: seq<TypeOp>) {
    forall i :: 0 <= i < |steps| ==> steps[i].opCode != ""
  }

  lemma {:induction false} LastEnabledIsRow(ops: seq<TypeOp>, code: string)
    ensures LastEnabled(ops, code).Some? ==>
      var op := LastEnabled(ops, code).value; op in ops && op.enabled && op.opCode == code
    ensures LastEnabled(ops, code).None? ==> forall op :: op in ops && op.enabled ==> op.opCode != code
  {
    if ops != [] {
      LastEnabledIsRow(ops[..|ops| - 1], code);
    }
  }

  ghost predicate Configured(ops: seq<TypeOp>, code: string) {
    exists op :: op in ops && op.enabled && op.opCode == code
  }

  ghost predicate HasStep(steps: seq<TypeOp>, code: string) {
    exists op :: op in steps && op.opCode == code
  }

  lemma {:induction false} StepsAreConfigured(catalog: seq<string>, ops: seq<TypeOp>)
    ensures forall op :: op in OrderedPipeline(catalog, ops) ==> op in ops && op.enabled && op.opCode in catalog
  {
    if catalog != [] {
      StepsAreConfigured(catalog[1..], ops);
      LastEnabledIsRow(ops, catalog[0]);
    }
  }

  lemma {:induction false} ConfiguredAreSteps(catalog: seq<string>, ops: seq<TypeOp>, code: string)
    requires code in catalog && Configured(ops, code)
    ensures HasStep(OrderedPipeline(catalog, ops), code)
  {
    LastEnabledIsRow(ops, catalog[0]);
    if code == catalog[0] {
      assert LastEnabled(ops, code).value in OrderedPipeline(catalog, ops);
    } else {
      assert code in catalog[1..];
      ConfiguredAreSteps(catalog[1..], ops, code);
      var op :| op in OrderedPipeline(catalog[1..], ops) && op.opCode == code;
      assert op in OrderedPipeline(catalog, ops);
    }
  }

  lemma {:induction false} StepsAreDistinct(catalog: seq<string>, ops: seq<TypeOp>)
    requires forall i, j :: 0 <= i < j < |catalog| ==> catalog[i] != catalog[j]
    ensures DistinctCodes(OrderedPipeline(catalog, ops))
  {
    if catalog != [] {
      StepsAreDistinct(catalog[1..], ops);
      StepsAreConfigured(catalog[1..], ops);
      LastEnabledIsRow(ops, catalog[0]);
      var rest := OrderedPipeline(catalog[1..], ops);
      forall op | op in rest ensures op.opCode != catalog[0] {
        var i :| 0 <= i < |catalog[1..]| && catalog[1..][i] == op.opCode;
        assert catalog[i + 1] == op.opCode;
      }
    }
  }

  /** The pipeline holds exactly the catalogued operations that are configured and enabled,
      each by an enabled row of the type and once, for a catalogue without repeats. */
  lemma PipelineFollowsCatalog(catalog: seq<string>, ops: seq<TypeOp>)
    requires forall i, j :: 0 <= i < j < |catalog| ==> catalog[i] != catalog[j]
    ensures var steps := OrderedPipeline(catalog, ops);
      && DistinctCodes(steps)
      && (forall op :: op in steps ==> op in ops && op.enabled && op.opCode in catalog)
      && (forall code :: HasStep(steps, code) <==> code in catalog && Configured(ops, code))
  {
    StepsAreDistinct(catalog, ops);
    StepsAreConfigured(catalog, ops);
    forall code | code in catalog && Configured(ops, code) ensures HasStep(OrderedPipeline(catalog, ops), code) {
      ConfiguredAreSteps(catalog, ops, code);
    }
  }

  lemma CatalogHasNoRepeats(code: string)
    ensures forall i, j :: 0 <= i < j < |Catalog(code)| ==> Catalog(code)[i] != Catalog(code)[j]
    ensures forall i :: 0 <= i < |Catalog(code)| ==> Catalog(code)[i] != ""
  {
    forall i, j | 0 <= i < j < |Catalog(code)| ensures Catalog(code)[i] != Catalog(code)[j] {
      assert |Catalog(code)[i]| != |Catalog(code)[j]|;
    }
  }

  /** The types with a pipeline are two, and both go through the same six calls in this order. */
  lemma CatalogIs(code: string)
    ensures IsMultiOp(code) <==> Catalog(code) != []
    ensures IsMultiOp(code) <==> code == "collect_extra_data" || code == "update_channel"
    ensures IsMultiOp(code) ==>
      && |Catalog(code)| == 6
      && Catalog(code)[0] == "get_entity" && Catalog(code)[1] == "channels.JoinChannel"
      && Catalog(code)[2] == "channels.GetFullChannel" && Catalog(code)[3] == "iter_messages"
      && Catalog(code)[4] == "channels.GetParticipants" && Catalog(code)[5] == "channels.LeaveChannel"
  {
  }

  // The last enabled operation of the list with this code.
  ghost predicate LastOfCode(ops: seq<TypeOp>, op: TypeOp) {
    exists i ::
      && 0 <= i < |ops| && ops[i] == op && op.enabled
      && forall j :: i < j < |ops| && ops[j].enabled ==> ops[j].opCode != op.opCode
  }

  lemma {:induction false} LastEnabledIsLast(ops: seq<TypeOp>, code: string)
    ensures LastEnabled(ops, code).Some? ==> LastOfCode(ops, LastEnabled(ops, code).value)
  {
    if LastEnabled(ops, code).Some? {
      var n, op := |ops| - 1, LastEnabled(ops, code).value;
      LastEnabledIsRow(ops, code);
      if ops[n].enabled && ops[n].opCode == code {
        assert ops[n] == op;
      } else {
        LastEnabledIsLast(ops[..n], code);
        LastEnabledIsRow(ops[..n], code);
        var i :| 0 <= i < n && ops[..n][i] == op
                 && forall j :: i < j < n && ops[..n][j].enabled ==> ops[..n][j].opCode != op.opCode;
        forall j | i < j < |ops| && ops[j].enabled ensures ops[j].opCode != op.opCode {
          assert j < n ==> ops[..n][j] == ops[j];
        }
      }
    }
  }

  // The positions in the catalogue of the steps, in order.
  ghost predicate PlacedAt(catalog: seq<string>, steps: seq<TypeOp>, at: seq<nat>) {
    && |at| == |steps|
    && (forall k :: 0 <= k < |at| ==> at[k] < |catalog| && steps[k].opCode == catalog[at[k]])
    && forall k, l :: 0 <= k < l < |at| ==> at[k] < at[l]
  }

  lemma ShiftedByOne(catalog: seq<string>, steps: seq<TypeOp>, at: seq<nat>) returns (later: seq<nat>)
    requires catalog != [] && PlacedAt(catalog[1..], steps, at)
    ensures PlacedAt(catalog, steps, later) && forall k :: 0 <= k < |later| ==> later[k] > 0
  {
    later := seq(|at|, k requires 0 <= k < |at| => at[k] + 1);
    forall k | 0 <= k < |later| ensures later[k] < |catalog| && steps[k].opCode == catalog[later[k]] {
      assert catalog[1..][at[k]] == catalog[later[k]];
    }
  }

  lemma FirstInFront(catalog: seq<string>, op: TypeOp, steps: seq<TypeOp>, at: seq<nat>)
    requires catalog != [] && op.opCode == catalog[0]
    requires PlacedAt(catalog, steps, at) && forall k :: 0 <= k < |at| ==> at[k] > 0
    ensures PlacedAt(catalog, [op] + steps, [0] + at)
  {
  }

  /** The pipeline goes through its operations in the order of the catalogue. */
  lemma {:induction false} PipelineInOrder(catalog: seq<string>, ops: seq<TypeOp>) returns (at: seq<nat>)
    ensures PlacedAt(catalog, OrderedPipeline(catalog, ops), at)
  {
    if catalog == [] {
      return [];
    }
    var rest, op := OrderedPipeline(catalog[1..], ops), LastEnabled(ops, catalog[0]);
    at := PipelineInOrder(catalog[1..], ops);
    at := ShiftedByOne(catalog, rest, at);
    if op.Some? {
      LastEnabledIsRow(ops, catalog[0]);
      FirstInFront(catalog, op.value, rest, at);
      at := [0] + at;
    } else {
      assert OrderedPipeline(catalog, ops) == rest;
    }
  }

  /** Where an operation is listed more than once, the last enabled row is the step. */
  lemma {:induction false} LastRowWins(catalog: seq<string>, ops: seq<TypeOp>)
    ensures forall op :: op in OrderedPipeline(catalog, ops) ==> LastOfCode(ops, op)
  {
    if catalog != [] {
      LastRowWins(catalog[1..], ops);
      LastEnabledIsLast(ops, catalog[0]);
    }
  }

  function PipelineOf(tt: TaskType): seq<TypeOp> {
    OrderedPipeline(Catalog(tt.code), tt.ops)
  }

  /** A task type's pipeline has distinct, named steps. */
  lemma TypePipelineIsSound(tt: TaskType)
    ensures DistinctCodes(PipelineOf(tt)) && Named(PipelineOf(tt))
  {
    CatalogHasNoRepeats(tt.code);
    StepsAreDistinct(Catalog(tt.code), tt.ops);
    StepsAreNamed(Catalog(tt.code), tt.ops);
  }

  lemma StepsAreNamed(catalog: seq<string>, ops: seq<TypeOp>)
    requires forall i :: 0 <= i < |catalog| ==> catalog[i] != ""
    ensures Named(OrderedPipeline(catalog, ops))
  {
    var steps := OrderedPipeline(catalog, ops);
    StepsAreConfigured(catalog, ops);
    forall i | 0 <= i < |steps| ensures steps[i].opCode != "" {
      assert steps[i] in steps;
    }
  }

  // ----- many runs -----

  /** What a task's pipeline has done so far: the committed step, every charge, every commit. */
  datatype Progress = Progress(last: Option<string>, charged: seq<TypeOp>, committed: seq<TypeOp>)

  /** How a run over the remaining steps ends: it stops at position `failAt` of them, before
      the charge of that step or after it, and before its commit. It goes through if there is
      no such position. A run refused before its first step is `Run(0, false)`. */
  datatype Run = Run(failAt: nat, charged: bool)

  function RunFrom(rest: seq<TypeOp>, st: Progress, run: Run): Progress {
    if rest == [] then st
    else if run.failAt == 0 then
      if run.charged then st.(charged := st.charged + [rest[0]]) else st
    else
      var next := Progress(Some(rest[0].opCode), st.charged + [rest[0]], st.committed + [rest[0]]);
      RunFrom(rest[1..], next, Run(run.failAt - 1, run.charged))
  }

  function Retry(steps: seq<TypeOp>, st: Progress, run: Run): Progress {
    RunFrom(Remaining(steps, st.last), st, run)
  }

  const NOTHING_DONE := Progress(None, [], [])

  function Repeat(step: TypeOp, n: nat): seq<TypeOp> {
    seq(n, _ => step)
  }

  // Each step up to `upTo` the given number of times, in pipeline order.
  function Trace(steps: seq<TypeOp>, times: seq<nat>, upTo: nat): seq<TypeOp>
    requires upTo <= |steps| && |times| == |steps|
  {
    if upTo == 0 then [] else Trace(steps, times, upTo - 1) + Repeat(steps[upTo - 1], times[upTo - 1])
  }

  function LastStep(steps: seq<TypeOp>, done: nat): Option<string>
    requires done <= |steps|
  {
    if done == 0 then None else Some(steps[done - 1].opCode)
  }

  /** The books of all runs so far: the first `done` steps are committed, in order and once
      each; step i has been charged times[i] times, and the charges are in pipeline order. */
  ghost predicate InOrder(steps: seq<TypeOp>, st: Progress, done: nat, times: seq<nat>) {
    && done <= |steps| && |times| == |steps|
    && st.committed == steps[..done]
    && st.last == LastStep(steps, done)
    && (forall i :: done < i < |steps| ==> times[i] == 0)
    && st.charged == Trace(steps, times, if done < |steps| then done + 1 else done)
  }

  lemma {:induction false} TraceIgnoresRest(steps: seq<TypeOp>, x: seq<nat>, y: seq<nat>, upTo: nat)
    requires upTo <= |steps| && |x| == |y| == |steps| && x[..upTo] == y[..upTo]
    ensures Trace(steps, x, upTo) == Trace(steps, y, upTo)
  {
    if upTo > 0 {
      assert x[..upTo - 1] == x[..upTo][..upTo - 1] && y[..upTo - 1] == y[..upTo][..upTo - 1];
      assert x[upTo - 1] == x[..upTo][upTo - 1];
      TraceIgnoresRest(steps, x, y, upTo - 1);
    }
  }

  lemma {:induction false} ChargeExtendsTrace(steps: seq<TypeOp>, times: seq<nat>, done: nat)
    requires done < |steps| == |times|
    ensures Trace(steps, times[done := times[done] + 1], done + 1) == Trace(steps, times, done + 1) + [steps[done]]
  {
    var more := times[done := times[done] + 1];
    TraceIgnoresRest(steps, times, more, done);
    assert Repeat(steps[done], more[done]) == Repeat(steps[done], times[done]) + [steps[done]];
  }

  /** How many charges one run adds to each step. */
  function Added(done: nat, run: Run, i: nat): nat {
    if done <= i < done + run.failAt || (i == done + run.failAt && run.charged) then 1 else 0
  }

  function DoneAfter(n: nat, done: nat, run: Run): nat {
    if done + run.failAt < n then done + run.failAt else n
  }

  lemma ChargeKeepsOrder(steps: seq<TypeOp>, st: Progress, done: nat, times: seq<nat>)
    requires InOrder(steps, st, done, times) && done < |steps|
    ensures InOrder(steps, st.(charged := st.charged + [steps[done]]), done, times[done := times[done] + 1])
  {
    ChargeExtendsTrace(steps, times, done);
  }

  // A step charged last is committed.
  lemma CommitKeepsOrder(steps: seq<TypeOp>, st: Progress, done: nat, times: seq<nat>)
    requires InOrder(steps, st, done, times) && done < |steps|
    ensures InOrder(steps, Progress(Some(steps[done].opCode), st.charged, st.committed + [steps[done]]), done + 1,
                    times)
  {
    if done + 1 < |steps| {
      assert Repeat(steps[done + 1], times[done + 1]) == [];
    }
  }

  lemma {:induction false} RunKeepsOrder(steps: seq<TypeOp>, st: Progress, done: nat, times: seq<nat>, run: Run)
    returns (times': seq<nat>)
    requires InOrder(steps, st, done, times)
    ensures InOrder(steps, RunFrom(steps[done..], st, run), DoneAfter(|steps|, done, run), times')
    ensures forall i :: 0 <= i < |steps| ==> times'[i] == times[i] + Added(done, run, i)
    decreases |steps| - done
  {
    times' := times;
    if done < |steps| && (run.failAt > 0 || run.charged) {
      times' := times[done := times[done] + 1];
      var paid := st.(charged := st.charged + [steps[done]]);
      ChargeKeepsOrder(steps, st, done, times);
      if run.failAt > 0 {
        CommitKeepsOrder(steps, paid, done, times');
        assert steps[done..][1..] == steps[done + 1..];
        var next := Progress(Some(steps[done].opCode), paid.charged, paid.committed + [steps[done]]);
        times' := RunKeepsOrder(steps, next, done + 1, times', Run(run.failAt - 1, run.charged));
      }
    }
  }

  lemma {:induction false} ResumeAfterLast(steps: seq<TypeOp>, done: nat)
    requires done <= |steps| && DistinctCodes(steps) && Named(steps)
    ensures Remaining(steps, LastStep(steps, done)) == steps[done..]
  {
  }

  // The step at which each run started, and how often a run charged step i and failed at it.
  function DoneBefore(n: nat, runs: seq<Run>, k: nat): nat
    requires k <= |runs|
  {
    if k == 0 then 0 else DoneAfter(n, DoneBefore(n, runs, k - 1), runs[k - 1])
  }

  function PaidFailures(n: nat, runs: seq<Run>, i: nat, k: nat): nat
    requires k <= |runs|
  {
    if k == 0 then 0
    else
      var stopped := DoneBefore(n, runs, k - 1) + runs[k - 1].failAt;
      PaidFailures(n, runs, i, k - 1) + if stopped == i && runs[k - 1].charged then 1 else 0
  }

  /** The charges of each step after the first k runs: one per run that charged it and failed
      at it, and one more once it is committed. */
  ghost predicate TimesAre(n: nat, runs: seq<Run>, k: nat, times: seq<nat>)
    requires k <= |runs|
  {
    && |times| == n
    && forall i :: 0 <= i < n ==>
         times[i] == PaidFailures(n, runs, i, k) + if i < DoneBefore(n, runs, k) then 1 else 0
  }

  lemma {:induction false} TimesAdvance(n: nat, runs: seq<Run>, k: nat, before: seq<nat>, times: seq<nat>)
    requires k < |runs| && TimesAre(n, runs, k, before) && |times| == n
    requires forall i :: 0 <= i < n ==> times[i] == before[i] + Added(DoneBefore(n, runs, k), runs[k], i)
    ensures TimesAre(n, runs, k + 1, times)
  {
  }

  lemma {:induction false} RetryKeepsOrder(steps: seq<TypeOp>, st: Progress, started: nat, times: seq<nat>, run: Run)
    returns (times': seq<nat>)
    requires DistinctCodes(steps) && Named(steps) && InOrder(steps, st, started, times)
    ensures InOrder(steps, Retry(steps, st, run), DoneAfter(|steps|, started, run), times')
    ensures forall i :: 0 <= i < |steps| ==> times'[i] == times[i] + Added(started, run, i)
  {
    ResumeAfterLast(steps, started);
    times' := RunKeepsOrder(steps, st, started, times, run);
  }

  /** The books after k runs: order and progress as the runs left them, and the charges of each
      step counted. */
  ghost predicate Resumed(steps: seq<TypeOp>, st: Progress, runs: seq<Run>, k: nat, times: seq<nat>)
    requires k <= |runs|
  {
    InOrder(steps, st, DoneBefore(|steps|, runs, k), times) && TimesAre(|steps|, runs, k, times)
  }

  lemma {:induction false} OneMoreRun(steps: seq<TypeOp>, st: Progress, runs: seq<Run>, k: nat, before: seq<nat>)
    returns (times: seq<nat>)
    requires DistinctCodes(steps) && Named(steps) && k < |runs| && Resumed(steps, st, runs, k, before)
    ensures Resumed(steps, Retry(steps, st, runs[k]), runs, k + 1, times)
  {
    times := RetryKeepsOrder(steps, st, DoneBefore(|steps|, runs, k), before, runs[k]);
    TimesAdvance(|steps|, runs, k, before, times);
  }

  lemma {:induction false} NothingRunYet(steps: seq<TypeOp>, runs: seq<Run>) returns (times: seq<nat>)
    ensures Resumed(steps, NOTHING_DONE, runs, 0, times)
  {
    times := seq(|steps|, _ => 0);
    if steps != [] {
      assert Trace(steps, times, 1) == Trace(steps, times, 0) + Repeat(steps[0], times[0]);
    }
  }

  // Each run retried where the one before it stopped.
  ghost predicate IsHistory(steps: seq<TypeOp>, runs: seq<Run>, history: seq<Progress>) {
    && |history| == |runs| + 1 && history[0] == NOTHING_DONE
    && forall k {:trigger runs[k]} :: 0 <= k < |runs| ==> history[k + 1] == Retry(steps, history[k], runs[k])
  }

  /** Over any sequence of failing and retried runs of a fixed pipeline with distinct codes,
      after each of them: the committed operations are a prefix of the pipeline, in order, each
      once; operation i was charged once for its commit plus once for every run that charged
      it and failed at it, and never after its commit; and the charges follow the pipeline
      order throughout. */
  lemma {:induction false} RetriesResume(steps: seq<TypeOp>, runs: seq<Run>, history: seq<Progress>, k: nat)
    returns (times: seq<nat>)
    requires DistinctCodes(steps) && Named(steps) && IsHistory(steps, runs, history) && k <= |runs|
    ensures Resumed(steps, history[k], runs, k, times)
  {
    if k == 0 {
      times := NothingRunYet(steps, runs);
    } else {
      var before := RetriesResume(steps, runs, history, k - 1);
      times := OneMoreRun(steps, history[k - 1], runs, k - 1, before);
    }
  }

  /** Resuming depends on the configuration standing still: a committed operation is done
      again exactly when the last committed code has left the pipeline. */
  lemma RestartIff(steps: seq<TypeOp>, last: string)
    requires last != "" && steps != []
    ensures Remaining(steps, Some(last)) == steps <==> PositionOf(steps, last).None?
  {
    var p := PositionOf(steps, last);
    if p.Some? {
      assert |steps[p.value + 1..]| < |steps|;
    }
  }

  // ----- the runner itself -----

  function Minimum(m: nat, n: nat): nat { if m < n then m else n }

  // How many of n steps a run commits, and how many it charges.
  function CommittedBy(n: nat, run: Run): nat {
    Minimum(n, run.failAt)
  }

  function ChargedBy(n: nat, run: Run): nat {
    if run.failAt < n && run.charged then run.failAt + 1 else Minimum(n, run.failAt)
  }

  function PaidRows(rest: seq<TypeOp>, n: nat, account: AccountId, id: TaskId, now: Time): (r: seq<UsageRow>)
    requires n <= |rest|
    ensures |r| == n && forall i :: 0 <= i < n ==> r[i] == UsageRow(account, rest[i].opId, id, rest[i].units, now)
  {
    if n == 0 then []
    else PaidRows(rest, n - 1, account, id, now) + [UsageRow(account, rest[n - 1].opId, id, rest[n - 1].units, now)]
  }

  /** The tables after the first k of the remaining steps were committed, and `paid` charged. */
  function RunTables(before: Db, rest: seq<TypeOp>, k: nat, paid: nat, account: AccountId, id: TaskId,
                     lock: Option<Locker>): Db
    requires k <= |rest| && paid <= |rest|
  {
    (if k == 0 then before else SetLastCompletedStep(before, id, rest[k - 1].opCode, lock))
      .(usage := before.usage + PaidRows(rest, paid, account, id, before.now))
  }

  /** The tables after one run over the remaining steps. */
  function AfterRun(before: Db, rest: seq<TypeOp>, run: Run, account: AccountId, id: TaskId, lock: Option<Locker>): Db {
    RunTables(before, rest, CommittedBy(|rest|, run), ChargedBy(|rest|, run), account, id, lock)
  }

  lemma ChargeOneMore(before: Db, rest: seq<TypeOp>, k: nat, account: AccountId, id: TaskId, lock: Option<Locker>)
    requires k < |rest|
    ensures Charge(RunTables(before, rest, k, k, account, id, lock), account, rest[k], id)
         == RunTables(before, rest, k, k + 1, account, id, lock)
  {
    var row := [UsageRow(account, rest[k].opId, id, rest[k].units, before.now)];
    assert before.usage + (PaidRows(rest, k, account, id, before.now) + row)
        == before.usage + PaidRows(rest, k, account, id, before.now) + row;
  }

  lemma LaterStepWins(db: Db, id: TaskId, one: string, two: string, lock: Option<Locker>)
    ensures SetLastCompletedStep(SetLastCompletedStep(db, id, one, lock), id, two, lock)
         == SetLastCompletedStep(db, id, two, lock)
  {
  }

  lemma CommitIgnoresLog(db: Db, usage: seq<UsageRow>, id: TaskId, code: string, lock: Option<Locker>)
    ensures SetLastCompletedStep(db.(usage := usage), id, code, lock)
         == SetLastCompletedStep(db, id, code, lock).(usage := usage)
  {
  }

  lemma CommitOneMore(before: Db, rest: seq<TypeOp>, k: nat, paid: nat, account: AccountId, id: TaskId,
                      lock: Option<Locker>)
    requires k < |rest| && paid <= |rest|
    ensures SetLastCompletedStep(RunTables(before, rest, k, paid, account, id, lock), id, rest[k].opCode, lock)
         == RunTables(before, rest, k + 1, paid, account, id, lock)
  {
    var usage := before.usage + PaidRows(rest, paid, account, id, before.now);
    var committed := if k == 0 then before else SetLastCompletedStep(before, id, rest[k - 1].opCode, lock);
    CommitIgnoresLog(committed, usage, id, rest[k].opCode, lock);
    if k > 0 {
      LaterStepWins(before, id, rest[k - 1].opCode, rest[k].opCode, lock);
    }
  }

  class PipelineRunner {
    const queue: TaskQueueRepo
    const usage: ResourceUsageRepo

    constructor (queue: TaskQueueRepo, usage: ResourceUsageRepo)
      ensures this.queue == queue && this.usage == usage
    {
      this.queue, this.usage := queue, usage;
    }

    /** Runs what remains, until the executor raises as `run` says. Every step before that
        position is charged and committed, the step at it is charged if the run got so far,
        and the recorded step is the last committed one. */
    method Run(id: TaskId, rest: seq<TypeOp>, account: AccountId, run: Run, lock: Option<Locker>) returns (ok: bool)
      requires queue.db == usage.db
      modifies queue.db`usage, queue.db`tasks
      ensures ok == (run.failAt >= |rest|)
      ensures queue.db.Snapshot() == AfterRun(old(queue.db.Snapshot()), rest, run, account, id, lock)
    {
      ghost var before := queue.db.Snapshot();
      var k := 0;
      while k < |rest|
        invariant 0 <= k <= |rest| && k <= run.failAt
        invariant queue.db.Snapshot() == RunTables(before, rest, k, k, account, id, lock)
      {
        if k == run.failAt && !run.charged {
          return false;
        }
        usage.RecordOp(account, rest[k], id);
        ChargeOneMore(before, rest, k, account, id, lock);
        if k == run.failAt {
          return false;
        }
        queue.CommitStep(id, rest[k].opCode, lock);
        CommitOneMore(before, rest, k, k + 1, account, id, lock);
        k := k + 1;
      }
      return true;
    }
  }

  lemma OneStepMore(rest: seq<TypeOp>, k: nat, before: seq<TypeOp>)
    requires 0 < k <= |rest|
    ensures (before + [rest[0]]) + rest[1..][..k - 1] == before + rest[..k]
  {
    assert rest[..k] == [rest[0]] + rest[1..][..k - 1];
  }

  /** The runner realises RunFrom: same charges, same commits, same recorded step. */
  lemma {:induction false} RunnerRealisesRunFrom(rest: seq<TypeOp>, st: Progress, run: Run)
    ensures var after := RunFrom(rest, st, run);
      var k, paid := CommittedBy(|rest|, run), ChargedBy(|rest|, run);
      && after.charged == st.charged + rest[..paid]
      && after.committed == st.committed + rest[..k]
      && after.last == (if k == 0 then st.last else Some(rest[k - 1].opCode))
  {
    if rest != [] && run.failAt > 0 {
      var next := Progress(Some(rest[0].opCode), st.charged + [rest[0]], st.committed + [rest[0]]);
      RunnerRealisesRunFrom(rest[1..], next, Run(run.failAt - 1, run.charged));
      OneStepMore(rest, ChargedBy(|rest|, run), st.charged);
      OneStepMore(rest, CommittedBy(|rest|, run), st.committed);
    }
  }
}
