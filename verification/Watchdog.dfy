/** The watchdog pass: sweep orphaned reservations, then close timed-out tasks, oldest first. */
module Watchdog {
  import opened Schema
  import opened QueueTable
  import opened Effects

  // ----- which tasks a pass takes -----

  predicate Older(db: Db, a: TaskId, b: TaskId)
    requires TimedOutTask(db, a) && TimedOutTask(db, b)
  {
    LockAnchor(db.tasks[a]).value <= LockAnchor(db.tasks[b]).value
  }

  function TimedOutTasks(db: Db): set<TaskId> {
    set id | id in db.tasks && TimedOutTask(db, id)
  }

  function Minimum(m: nat, n: nat): nat { if m < n then m else n }

  /** ORDER BY locked_at ASC LIMIT n: as many as allowed, and none left behind that is
      strictly older than one taken. */
  ghost predicate OldestBatch(db: Db, limit: nat, batch: set<TaskId>) {
    && batch <= TimedOutTasks(db)
    && |batch| == Minimum(limit, |TimedOutTasks(db)|)
    && forall a, b :: a in batch && b in TimedOutTasks(db) - batch ==> Older(db, a, b)
  }

  function Pass(db: Db, batch: set<TaskId>, policy: AutoRetry): Db {
    MarkTimedOut(ReleaseOrphans(db), batch, policy)
  }

  // ----- what a pass leaves behind -----

  ghost predicate ReservationsAreLive(db: Db) {
    forall a :: a in db.accounts && db.accounts[a].currentTask.Some? ==>
      db.accounts[a].currentTask.value in db.tasks && db.tasks[db.accounts[a].currentTask.value].status.InProgress?
  }

  /** From any state of both tables one pass makes the reservation column right: a
      reservation stays exactly if its task was in progress and is not closed by the pass. */
  lemma PassStabilises(db: Db, batch: set<TaskId>, policy: AutoRetry)
    requires batch <= TimedOutTasks(db)
    ensures ReservationsAreLive(Pass(db, batch, policy))
    ensures forall a :: a in db.accounts ==>
      var was, now := db.accounts[a].currentTask, Pass(db, batch, policy).accounts[a].currentTask;
      var live := was.Some? && was.value in db.tasks && db.tasks[was.value].status.InProgress? && was.value !in batch;
      now == if live then was else None
  {
  }

  /** A live lease is never touched, and a closed task went where policy and counters say. */
  lemma PassRespectsLeases(db: Db, batch: set<TaskId>, policy: AutoRetry, id: TaskId)
    requires batch <= TimedOutTasks(db) && id in db.tasks
    ensures !LeaseOver(db.tasks[id], db.now) ==> Pass(db, batch, policy).tasks[id] == db.tasks[id]
    ensures id !in batch ==> Pass(db, batch, policy).tasks[id] == db.tasks[id]
    ensures id in batch ==>
      var t, u := db.tasks[id], Pass(db, batch, policy).tasks[id];
      && u.lockedBy.None? && u.lockedUntil.None?
      && (u.status.Stuck? <==> !policy.enabled)
      && (u.status.Retry? <==>
            policy.enabled && t.payload.watchdogRetries < policy.cap && t.attemptCount < t.maxAttempts)
      && u.payload.watchdogRetries == t.payload.watchdogRetries + (if u.status.Retry? then 1 else 0)
      && (u.status.Stuck? || u.status.Retry? || u.status.Failed?) && u.attemptCount == t.attemptCount
  {
  }

  lemma TimedOutAreRunOut(db: Db)
    ensures TimedOutTasks(db) == set id | id in db.tasks && RunOut(db, id)
  {
    forall id | id in db.tasks ensures TimedOutTask(db, id) <==> RunOut(db, id) {
      TimesOutIff(db, id);
    }
  }

  lemma PassClosesBatch(db: Db, batch: set<TaskId>, policy: AutoRetry)
    requires batch <= TimedOutTasks(db)
    ensures OnlyBatchClosed(db, Pass(db, batch, policy), batch, policy)
  {
    forall id | id in db.tasks && id in batch
      ensures ClosedByWatchdog(db.tasks[id], Pass(db, batch, policy).tasks[id], db.now, policy)
    {
      WatchdogWrites(ReleaseOrphans(db), batch, policy, id);
    }
  }

  lemma PassKeepsLive(db: Db, batch: set<TaskId>, policy: AutoRetry)
    requires batch <= TimedOutTasks(db)
    ensures LiveOnesStay(db, Pass(db, batch, policy))
  {
    PassStabilises(db, batch, policy);
  }

  lemma BatchIsLongest(db: Db, batch: set<TaskId>, limit: nat)
    requires OldestBatch(db, limit, batch)
    ensures LongestRunOut(db, batch, limit)
  {
    TimedOutAreRunOut(db);
    forall a, b | a in batch && b in TimedOutTasks(db) - batch ensures Since(db.tasks[a]) <= Since(db.tasks[b]) {
      assert Older(db, a, b);
    }
  }

  /** What a pass does, row by row. */
  lemma PassIsShown(db: Db, batch: set<TaskId>, limit: nat, policy: AutoRetry)
    requires OldestBatch(db, limit, batch)
    ensures PassShows(db, Pass(db, batch, policy), batch, limit, policy)
  {
    BatchIsLongest(db, batch, limit);
    PassClosesBatch(db, batch, policy);
    PassKeepsLive(db, batch, policy);
  }

  lemma {:induction false} SweepKeepsTimeouts(db: Db)
    ensures TimedOutTasks(ReleaseOrphans(db)) == TimedOutTasks(db)
  {
    assert forall id :: TimedOutTask(ReleaseOrphans(db), id) == TimedOutTask(db, id);
  }

  lemma {:induction false} SweepKeepsBatch(db: Db, limit: nat, batch: set<TaskId>)
    requires OldestBatch(ReleaseOrphans(db), limit, batch)
    ensures OldestBatch(db, limit, batch)
  {
    SweepKeepsTimeouts(db);
    forall a, b | a in batch && b in TimedOutTasks(db) - batch ensures Older(db, a, b) {
      assert Older(ReleaseOrphans(db), a, b);
    }
  }

  /** What a pass takes no longer times out; everything else does as before. */
  lemma PassClearsBatch(db: Db, batch: set<TaskId>, policy: AutoRetry)
    requires batch <= TimedOutTasks(db)
    ensures TimedOutTasks(Pass(db, batch, policy)) == TimedOutTasks(db) - batch
  {
    var after := Pass(db, batch, policy);
    forall id ensures TimedOutTask(after, id) <==> TimedOutTask(db, id) && id !in batch {
      if id in batch {
        assert id in TimedOutTasks(db);
      }
    }
  }

  ghost predicate IsPass(db: Db, next: Db, limit: nat, policy: AutoRetry) {
    exists batch :: OldestBatch(db, limit, batch) && next == Pass(db, batch, policy)
  }

  ghost predicate Passes(dbs: seq<Db>, limit: nat, policy: AutoRetry) {
    forall i, j :: 0 <= i && j == i + 1 < |dbs| ==> IsPass(dbs[i], dbs[j], limit, policy)
  }

  // What is left of a backlog after k passes.
  function Left(backlog: nat, k: nat, limit: nat): nat {
    if k * limit <= backlog then backlog - k * limit else 0
  }

  lemma OneFewer(backlog: nat, k: nat, limit: nat)
    requires k > 0
    ensures Left(backlog, k, limit) == Left(backlog, k - 1, limit) - Minimum(limit, Left(backlog, k - 1, limit))
  {
    assert k * limit == (k - 1) * limit + limit;
  }

  /** Repeated passes drain any backlog: with the clock standing still, after k passes of
      batch size `limit` exactly max(0, |backlog| - k * limit) tasks are left timed out. */
  lemma {:induction false} BacklogDrains(dbs: seq<Db>, limit: nat, policy: AutoRetry)
    requires |dbs| > 0 && Passes(dbs, limit, policy)
    ensures |TimedOutTasks(dbs[|dbs| - 1])| == Left(|TimedOutTasks(dbs[0])|, |dbs| - 1, limit)
    decreases |dbs|
  {
    var k := |dbs| - 1;
    if k > 0 {
      var before := dbs[..k];
      BacklogDrains(before, limit, policy);
      assert IsPass(dbs[k - 1], dbs[k], limit, policy);
      var batch :| OldestBatch(dbs[k - 1], limit, batch) && dbs[k] == Pass(dbs[k - 1], batch, policy);
      PassClearsBatch(dbs[k - 1], batch, policy);
      OneFewer(|TimedOutTasks(dbs[0])|, k, limit);
    }
  }
}
