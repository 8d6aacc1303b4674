/** Pausing the queue for a throughput test and giving it back: backup, cancel, restore. */
module QueueSwap {
  import opened Schema
  import opened QueueTable
  import opened Repositories
  import DedupHistory

  const PAUSE_ERROR_PREFIX := "throughput-test-paused:"

  // What the backup file keeps of a task that restoring needs.
  datatype BackupTask = BackupTask(id: TaskId, status: TaskStatus, runAfter: Option<Time>, dedupKey: Option<string>)

  function PauseMarker(runId: string): string {
    PAUSE_ERROR_PREFIX + runId
  }

  predicate HasPauseMark(lastError: Option<string>) {
    lastError.Some? && PAUSE_ERROR_PREFIX <= lastError.value
  }

  lemma MarkerIsAMark(runId: string)
    ensures HasPauseMark(Some(PauseMarker(runId)))
  {
  }

  // Only a row that some pause cancelled may be revived.
  predicate Paused(t: Task) {
    t.status.Cancelled? && HasPauseMark(t.lastError)
  }

  // ----- pausing -----

  function CancelledRow(t: Task, marker: string, now: Time): Task {
    Unlock(t).(status := Cancelled, lastError := Some(marker),
               finishedAt := if t.finishedAt.Some? then t.finishedAt else Some(now))
  }

  function CancelTasks(db: Db, ids: set<TaskId>, marker: string): Db {
    db.(tasks := map id | id in db.tasks ::
          if id in ids && Claimable(db.tasks[id].status) then CancelledRow(db.tasks[id], marker, db.now)
          else db.tasks[id])
  }

  function BackupOf(id: TaskId, t: Task): BackupTask {
    BackupTask(id, t.status, Some(t.runAfter), t.dedupKey)
  }

  function BackedUp(backup: seq<BackupTask>): set<TaskId> {
    set b | b in backup :: b.id
  }

  ghost predicate Ascending(backup: seq<BackupTask>) {
    forall i, j :: 0 <= i < j < |backup| ==> backup[i].id < backup[j].id
  }

  /** SELECT ... ORDER BY id: every claimable task once, in order of id, as it stands. */
  ghost predicate IsBackup(db: Db, backup: seq<BackupTask>) {
    && Ascending(backup)
    && (forall b :: b in backup ==>
          b.id in db.tasks && Claimable(db.tasks[b.id].status) && b == BackupOf(b.id, db.tasks[b.id]))
    && (forall id :: id in db.tasks && Claimable(db.tasks[id].status) ==> BackupOf(id, db.tasks[id]) in backup)
  }

  // ----- restoring -----

  /** Another task is active under the key; a missing or empty key is not looked up. */
  ghost predicate Conflicted(db: Db, b: BackupTask) {
    b.dedupKey.Some? && b.dedupKey.value != "" && HeldByOther(db, b.id, b.dedupKey)
  }

  ghost predicate HeldByOther(db: Db, id: TaskId, key: Option<string>) {
    key.Some? && exists h: TaskId :: h != id && ActiveWithKey(db, h, key.value)
  }

  function RestoredRow(t: Task, b: BackupTask, marker: string): Task {
    t.(status := b.status,
       runAfter := if b.runAfter.Some? then b.runAfter.value else t.runAfter,
       lastError := if t.lastError == Some(marker) then None else t.lastError,
       finishedAt := None)
  }

  /** `failed` says that the unique index refused an update and the restore stopped there. */
  datatype Restore = Restore(db: Db, restored: seq<TaskId>, conflicts: nat, skipped: nat, failed: bool)

  ghost function RestoreOne(start: Db, r: Restore, b: BackupTask, marker: string, dryRun: bool): Restore {
    if r.failed then r
    else if Conflicted(start, b) then r.(conflicts := r.conflicts + 1)
    else if !Claimable(b.status) then r.(skipped := r.skipped + 1)
    else if dryRun then r.(restored := r.restored + [b.id])
    else if b.id !in r.db.tasks || !Paused(r.db.tasks[b.id]) then r.(skipped := r.skipped + 1)
    else if HeldByOther(r.db, b.id, r.db.tasks[b.id].dedupKey) then r.(failed := true)
    else r.(db := PutTask(r.db, b.id, RestoredRow(r.db.tasks[b.id], b, marker)), restored := r.restored + [b.id])
  }

  ghost function RestoreAll(start: Db, backup: seq<BackupTask>, marker: string, dryRun: bool): Restore {
    if backup == [] then Restore(start, [], 0, 0, false)
    else
      var n := |backup| - 1;
      RestoreOne(start, RestoreAll(start, backup[..n], marker, dryRun), backup[n], marker, dryRun)
  }

  // The partial unique index, as a fact about a table.
  ghost predicate UniqueActive(db: Db) {
    forall x: TaskId, y: TaskId :: BothActive(db, x, y) ==> x == y
  }

  predicate BothActive(db: Db, x: TaskId, y: TaskId) {
    x in db.tasks && y in db.tasks && db.tasks[x].dedupKey.Some? && db.tasks[x].dedupKey == db.tasks[y].dedupKey
    && Active(db.tasks[x].status) && Active(db.tasks[y].status)
  }

  // ----- pause and restore with nothing in between -----

  /** The original row as a pause and a restore leave it: everything but the lock, the error
      text and the finishing time, which are cleared. */
  function PausedAndRestored(t: Task): Task {
    Unlock(t).(lastError := None, finishedAt := None)
  }

  ghost predicate RestoredSoFar(db: Db, paused: Db, now': Db, ids: set<TaskId>) {
    && now' == paused.(tasks := now'.tasks) && now'.tasks.Keys == db.tasks.Keys == paused.tasks.Keys
    && forall id :: id in db.tasks ==>
         now'.tasks[id] == if id in ids then PausedAndRestored(db.tasks[id]) else paused.tasks[id]
  }

  lemma NothingConflicts(db: Db, paused: Db, ids: set<TaskId>, now': Db, b: BackupTask, marker: string)
    requires UniqueActive(db) && b.id in db.tasks && Claimable(db.tasks[b.id].status)
    requires b.dedupKey == db.tasks[b.id].dedupKey
    requires paused == CancelTasks(db, ids, marker) && b.id in ids
    requires now'.tasks.Keys == db.tasks.Keys
    requires forall id :: id in db.tasks ==> now'.tasks[id].dedupKey == db.tasks[id].dedupKey
    requires forall id :: id in db.tasks && Active(now'.tasks[id].status) ==> Active(db.tasks[id].status)
    ensures !HeldByOther(now', b.id, b.dedupKey)
  {
    forall h: TaskId | b.dedupKey.Some? && h != b.id ensures !ActiveWithKey(now', h, b.dedupKey.value) {
      assert !BothActive(db, b.id, h);
    }
  }

  predicate CancelledBackup(db: Db, ids: set<TaskId>, b: BackupTask) {
    b.id in ids && b.id in db.tasks && Claimable(db.tasks[b.id].status) && b == BackupOf(b.id, db.tasks[b.id])
  }

  // Nothing stands in the way of a paused task.
  lemma PausedIsRevived(db: Db, ids: set<TaskId>, marker: string, r: Restore, b: BackupTask, done: set<TaskId>)
    requires UniqueActive(db) && HasPauseMark(Some(marker)) && CancelledBackup(db, ids, b) && b.id !in done && !r.failed
    requires RestoredSoFar(db, CancelTasks(db, ids, marker), r.db, done)
    ensures b.id in r.db.tasks
    ensures RestoreOne(CancelTasks(db, ids, marker), r, b, marker, false)
         == r.(db := PutTask(r.db, b.id, RestoredRow(r.db.tasks[b.id], b, marker)), restored := r.restored + [b.id])
  {
    var paused := CancelTasks(db, ids, marker);
    NothingConflicts(db, paused, ids, paused, b, marker);
    NothingConflicts(db, paused, ids, r.db, b, marker);
  }

  lemma RevivedIsRestored(db: Db, ids: set<TaskId>, marker: string, x: Db, b: BackupTask, done: set<TaskId>)
    requires CancelledBackup(db, ids, b) && b.id !in done && RestoredSoFar(db, CancelTasks(db, ids, marker), x, done)
    ensures b.id in x.tasks
    ensures RestoredSoFar(db, CancelTasks(db, ids, marker), PutTask(x, b.id, RestoredRow(x.tasks[b.id], b, marker)),
                          done + {b.id})
  {
  }

  lemma RestoreOnePaused(db: Db, ids: set<TaskId>, marker: string, r: Restore, b: BackupTask, done: set<TaskId>)
    requires UniqueActive(db) && HasPauseMark(Some(marker)) && CancelledBackup(db, ids, b) && b.id !in done && !r.failed
    requires RestoredSoFar(db, CancelTasks(db, ids, marker), r.db, done)
    ensures var after := RestoreOne(CancelTasks(db, ids, marker), r, b, marker, false);
      && after == r.(db := after.db, restored := r.restored + [b.id])
      && RestoredSoFar(db, CancelTasks(db, ids, marker), after.db, done + {b.id})
  {
    PausedIsRevived(db, ids, marker, r, b, done);
    RevivedIsRestored(db, ids, marker, r.db, b, done);
  }

  lemma LastIsNew(backup: seq<BackupTask>)
    requires Ascending(backup) && backup != []
    ensures var n := |backup| - 1;
      && Ascending(backup[..n]) && backup[n].id !in BackedUp(backup[..n])
      && BackedUp(backup) == BackedUp(backup[..n]) + {backup[n].id}
  {
    var n := |backup| - 1;
    assert backup == backup[..n] + [backup[n]];
  }

  ghost predicate Undone(db: Db, backup: seq<BackupTask>, marker: string, ids: set<TaskId>, r: Restore) {
    && !r.failed && |r.restored| == |backup| && r.conflicts == 0 && r.skipped == 0
    && RestoredSoFar(db, CancelTasks(db, ids, marker), r.db, BackedUp(backup))
  }

  lemma {:induction false} RestoreUndoesCancel(db: Db, backup: seq<BackupTask>, marker: string, ids: set<TaskId>)
    requires UniqueActive(db) && HasPauseMark(Some(marker)) && Ascending(backup)
    requires forall b :: b in backup ==> CancelledBackup(db, ids, b)
    ensures Undone(db, backup, marker, ids, RestoreAll(CancelTasks(db, ids, marker), backup, marker, false))
  {
    if backup != [] {
      var n, b := |backup| - 1, backup[|backup| - 1];
      LastIsNew(backup);
      RestoreUndoesCancel(db, backup[..n], marker, ids);
      var r := RestoreAll(CancelTasks(db, ids, marker), backup[..n], marker, false);
      RestoreOnePaused(db, ids, marker, r, b, BackedUp(backup[..n]));
    }
  }

  /** With no other activity a restore gives every paused task back its status and its
      run_after, and no other task changes. The error text a task had before is lost. */
  lemma PauseThenRestore(db: Db, backup: seq<BackupTask>, runId: string)
    requires UniqueActive(db) && IsBackup(db, backup)
    ensures var paused := CancelTasks(db, BackedUp(backup), PauseMarker(runId));
      var r := RestoreAll(paused, backup, PauseMarker(runId), false);
      && !r.failed && |r.restored| == |backup| && r.conflicts == 0 && r.skipped == 0
      && r.db.tasks.Keys == db.tasks.Keys
      && forall id :: id in db.tasks ==>
           r.db.tasks[id] == if Claimable(db.tasks[id].status) then PausedAndRestored(db.tasks[id]) else db.tasks[id]
  {
    MarkerIsAMark(runId);
    RestoreUndoesCancel(db, backup, PauseMarker(runId), BackedUp(backup));
    forall id | id in db.tasks && Claimable(db.tasks[id].status) ensures id in BackedUp(backup) {
      assert BackupOf(id, db.tasks[id]) in backup;
    }
  }

  // ----- restoring after anything has happened -----

  /** A restore revives nothing but rows a pause cancelled, and gives them the backed-up
      status; the index holds throughout; and every backup entry is counted once. */
  lemma {:induction false} RestoreIsSafe(start: Db, backup: seq<BackupTask>, marker: string, dryRun: bool)
    ensures var r := RestoreAll(start, backup, marker, dryRun);
      && r.db == start.(tasks := r.db.tasks) && r.db.tasks.Keys == start.tasks.Keys
      && (UniqueActive(start) ==> UniqueActive(r.db))
      && (!r.failed ==> |r.restored| + r.conflicts + r.skipped == |backup|)
      && (dryRun ==> r.db == start)
      && forall id :: id in start.tasks && r.db.tasks[id] != start.tasks[id] ==>
           Paused(start.tasks[id]) && Claimable(r.db.tasks[id].status)
           && r.db.tasks[id].dedupKey == start.tasks[id].dedupKey
  {
    if backup != [] {
      var n := |backup| - 1;
      RestoreIsSafe(start, backup[..n], marker, dryRun);
      var before, after := RestoreAll(start, backup[..n], marker, dryRun), RestoreAll(start, backup, marker, dryRun);
      RestoreOneIsSafe(start, before, backup[n], marker, dryRun);
    }
  }

  lemma RestoreOneIsSafe(start: Db, r: Restore, b: BackupTask, marker: string, dryRun: bool)
    ensures var after := RestoreOne(start, r, b, marker, dryRun);
      && after.db == r.db.(tasks := after.db.tasks) && after.db.tasks.Keys == r.db.tasks.Keys
      && (UniqueActive(r.db) ==> UniqueActive(after.db))
      && (r.failed ==> after.failed)
      && (!after.failed ==>
            |after.restored| + after.conflicts + after.skipped == |r.restored| + r.conflicts + r.skipped + 1)
      && (dryRun ==> after.db == r.db)
      && forall id :: id in r.db.tasks && after.db.tasks[id] != r.db.tasks[id] ==>
           Paused(r.db.tasks[id]) && Claimable(after.db.tasks[id].status)
           && after.db.tasks[id].dedupKey == r.db.tasks[id].dedupKey
  {
    var after := RestoreOne(start, r, b, marker, dryRun);
    if UniqueActive(r.db) && after.db != r.db {
      forall x: TaskId, y: TaskId | BothActive(after.db, x, y) ensures x == y {
        ReviveKeepsUnique(r.db, b.id, after.db.tasks[b.id], x, y);
      }
    }
  }

  lemma ReviveKeepsUnique(db: Db, id: TaskId, row: Task, x: TaskId, y: TaskId)
    requires UniqueActive(db) && id in db.tasks && row.dedupKey == db.tasks[id].dedupKey
    requires !HeldByOther(db, id, row.dedupKey)
    requires BothActive(PutTask(db, id, row), x, y)
    ensures x == y
  {
    if x != id && y != id {
      assert BothActive(db, x, y);
    } else if x != y {
      var other := if x == id then y else x;
      assert ActiveWithKey(db, other, row.dedupKey.value);
    }
  }

  /** After a restore that went through, nothing is left for a second one to do. */
  lemma {:induction false} NothingLeft(start: Db, backup: seq<BackupTask>, marker: string, b: BackupTask)
    requires !RestoreAll(start, backup, marker, false).failed && b in backup && Claimable(b.status)
    requires !Conflicted(start, b)
    ensures var after := RestoreAll(start, backup, marker, false).db;
      b.id in after.tasks ==> !Paused(after.tasks[b.id])
  {
    var n := |backup| - 1;
    if b in backup[..n] {
      NothingLeft(start, backup[..n], marker, b);
    } else {
      assert b == backup[n];
    }
  }

  lemma ConflictsPersist(start: Db, backup: seq<BackupTask>, marker: string, b: BackupTask)
    requires Conflicted(start, b)
    ensures Conflicted(RestoreAll(start, backup, marker, false).db, b)
  {
    RestoreIsSafe(start, backup, marker, false);
    var h: TaskId :| h != b.id && ActiveWithKey(start, h, b.dedupKey.value);
    assert ActiveWithKey(RestoreAll(start, backup, marker, false).db, h, b.dedupKey.value);
  }

  lemma {:induction false} SecondRestoreIsIdle(start: Db, backup: seq<BackupTask>, marker: string, again: string,
                                               k: nat)
    requires !RestoreAll(start, backup, marker, false).failed && k <= |backup|
    ensures var first := RestoreAll(start, backup, marker, false).db;
      var second := RestoreAll(first, backup[..k], again, false);
      second.db == first && second.restored == [] && !second.failed
  {
    if k > 0 {
      SecondRestoreIsIdle(start, backup, marker, again, k - 1);
      assert backup[..k][..k - 1] == backup[..k - 1];
      var b := backup[k - 1];
      if Conflicted(start, b) {
        ConflictsPersist(start, backup, marker, b);
      } else if Claimable(b.status) {
        NothingLeft(start, backup, marker, b);
      }
    }
  }

  // ----- what a restore means to the running queue -----

  predicate Revived(start: Db, after: Db, id: TaskId)
    requires after.tasks.Keys == start.tasks.Keys
  {
    id in start.tasks && after.tasks[id] != start.tasks[id]
  }

  ghost predicate Newest(db: Db, id: TaskId)
    requires id in db.tasks
  {
    db.tasks[id].dedupKey.Some? ==> IsNewest(db, id, db.tasks[id].dedupKey.value)
  }

  // What RestoreIsSafe says of each row: left alone, or active again under its key.
  predicate ActiveAgain(x: Db, y: Db, id: TaskId) {
    (id in x.tasks <==> id in y.tasks)
    && (id in x.tasks ==> y.tasks[id] == x.tasks[id]
                          || (Active(y.tasks[id].status) && y.tasks[id].dedupKey == x.tasks[id].dedupKey))
  }

  lemma RevivedIsNotOutrun(x: Db, y: Db, id: TaskId, other: TaskId)
    requires ActiveAgain(x, y, id) && ActiveAgain(x, y, other) && DedupHistory.NotOutrun(x, id, other)
    requires id in x.tasks && y.tasks[id] != x.tasks[id] ==> Newest(x, id)
    ensures DedupHistory.NotOutrun(y, id, other)
  {
    if id in x.tasks && x.tasks[id].dedupKey.Some? {
      assert HoldsKey(x, other, x.tasks[id].dedupKey.value) ==> other <= id || !Newest(x, id);
    }
  }

  lemma NotOutrunIsNewest(x: Db, y: Db, id: TaskId)
    requires (forall other :: ActiveAgain(x, y, other)) && id in x.tasks && id in y.tasks && y.tasks[id] != x.tasks[id]
    requires forall other: TaskId :: DedupHistory.NotOutrun(y, id, other)
    ensures Newest(x, id)
  {
    assert ActiveAgain(x, y, id);
    forall other: TaskId | x.tasks[id].dedupKey.Some? && HoldsKey(x, other, x.tasks[id].dedupKey.value)
      ensures other <= id
    {
      assert ActiveAgain(x, y, other) && DedupHistory.NotOutrun(y, id, other);
    }
  }

  /** A restore is no step of the running system, and it can break what every step of that
      keeps: an active task is still the newest of its key afterwards if and only if no revived
      task has been outrun by a newer one of its key, which may be closed by now. */
  lemma RestoreKeepsNewestIff(start: Db, backup: seq<BackupTask>, marker: string)
    requires DedupHistory.ActiveIsNewest(start)
    ensures var after := RestoreAll(start, backup, marker, false).db;
      && after.tasks.Keys == start.tasks.Keys
      && (DedupHistory.ActiveIsNewest(after) <==> forall id :: Revived(start, after, id) ==> Newest(start, id))
  {
    RestoreIsSafe(start, backup, marker, false);
    var after := RestoreAll(start, backup, marker, false).db;
    assert forall id :: ActiveAgain(start, after, id);
    if DedupHistory.ActiveIsNewest(after) {
      forall id | Revived(start, after, id) ensures Newest(start, id) {
        NotOutrunIsNewest(start, after, id);
      }
    }
    if forall id :: Revived(start, after, id) ==> Newest(start, id) {
      forall id: TaskId, other: TaskId ensures DedupHistory.NotOutrun(after, id, other) {
        assert DedupHistory.NotOutrun(start, id, other);
        assert ActiveAgain(start, after, id) && ActiveAgain(start, after, other);
        assert id in start.tasks && after.tasks[id] != start.tasks[id] ==> Revived(start, after, id);
        RevivedIsNotOutrun(start, after, id, other);
      }
    }
  }

  /** An immediate second restore, under any run id, changes nothing. */
  lemma RestoreTwice(start: Db, backup: seq<BackupTask>, marker: string, again: string)
    requires !RestoreAll(start, backup, marker, false).failed
    ensures var first := RestoreAll(start, backup, marker, false).db;
      var second := RestoreAll(first, backup, again, false);
      second.db == first && second.restored == [] && second.conflicts + second.skipped == |backup|
  {
    SecondRestoreIsIdle(start, backup, marker, again, |backup|);
    assert backup[..|backup|] == backup;
    RestoreIsSafe(RestoreAll(start, backup, marker, false).db, backup, again, false);
  }

  // ----- the plan -----

  ghost function Planned(db: Db, backup: seq<BackupTask>): seq<TaskId> {
    if backup == [] then []
    else
      var n := |backup| - 1;
      var planned := Claimable(backup[n].status) && !Conflicted(db, backup[n]);
      Planned(db, backup[..n]) + if planned then [backup[n].id] else []
  }

  lemma {:induction false} DryRunRestoresPlan(db: Db, backup: seq<BackupTask>, marker: string)
    ensures RestoreAll(db, backup, marker, true).restored == Planned(db, backup)
    ensures !RestoreAll(db, backup, marker, true).failed
  {
    if backup != [] {
      DryRunRestoresPlan(db, backup[..|backup| - 1], marker);
    }
  }

  ghost predicate DistinctIds(backup: seq<BackupTask>) {
    forall i, j :: 0 <= i < j < |backup| ==> backup[i].id != backup[j].id
  }

  lemma {:induction false} OthersUntouched(start: Db, backup: seq<BackupTask>, marker: string, id: TaskId)
    requires forall b :: b in backup ==> b.id != id
    ensures var r := RestoreAll(start, backup, marker, false);
      (id in r.db.tasks <==> id in start.tasks) && (id in start.tasks ==> r.db.tasks[id] == start.tasks[id])
      && id !in r.restored
  {
    if backup != [] {
      OthersUntouched(start, backup[..|backup| - 1], marker, id);
    }
  }

  /** A restore that went through restores exactly the planned ids, in order, if and only if
      every planned task is still paused. */
  lemma {:induction false} RestoresThePlanIff(start: Db, backup: seq<BackupTask>, marker: string)
    requires DistinctIds(backup) && !RestoreAll(start, backup, marker, false).failed
    ensures RestoreAll(start, backup, marker, false).restored == Planned(start, backup)
       <==> forall id :: id in Planned(start, backup) ==> id in start.tasks && Paused(start.tasks[id])
    ensures |RestoreAll(start, backup, marker, false).restored| <= |Planned(start, backup)|
  {
    if backup != [] {
      var n := |backup| - 1;
      RestoresThePlanIff(start, backup[..n], marker);
      OthersUntouched(start, backup[..n], marker, backup[n].id);
      var before := RestoreAll(start, backup[..n], marker, false).restored;
      var after := RestoreAll(start, backup, marker, false).restored;
      var planned := Planned(start, backup[..n]);
      assert after[..|before|] == before && Planned(start, backup)[..|planned|] == planned;
      assert forall id :: id in Planned(start, backup) <==> id in planned || id in Planned(start, backup)[|planned|..];
    }
  }

  // ----- when the index stops a restore -----

  /** What a backup of this queue looks like later: ids and keys are still those of the rows,
      and no two entries share a key. */
  ghost predicate KeysKept(db: Db, backup: seq<BackupTask>) {
    && DistinctIds(backup)
    && (forall b :: b in backup && b.id in db.tasks ==> db.tasks[b.id].dedupKey == b.dedupKey)
    && (forall i, j :: 0 <= i < j < |backup| && backup[i].dedupKey.Some? ==> backup[i].dedupKey != backup[j].dedupKey)
  }

  lemma OtherKeysHeldAlike(start: Db, backup: seq<BackupTask>, marker: string, n: nat)
    requires KeysKept(start, backup) && n < |backup| && backup[n].dedupKey.Some?
    ensures var r, b := RestoreAll(start, backup[..n], marker, false), backup[n];
      HeldByOther(r.db, b.id, b.dedupKey) <==> HeldByOther(start, b.id, b.dedupKey)
  {
    var r, b := RestoreAll(start, backup[..n], marker, false), backup[n];
    RestoreIsSafe(start, backup[..n], marker, false);
    forall h: TaskId | h != b.id
      ensures ActiveWithKey(r.db, h, b.dedupKey.value) <==> ActiveWithKey(start, h, b.dedupKey.value)
    {
      if HoldsKey(start, h, b.dedupKey.value) {
        OthersUntouched(start, backup[..n], marker, h);
      }
    }
  }

  ghost predicate EmptyKeyTaken(db: Db, b: BackupTask) {
    && Claimable(b.status) && b.dedupKey == Some("") && b.id in db.tasks && Paused(db.tasks[b.id])
    && HeldByOther(db, b.id, Some(""))
  }

  /** The conflict lookup ignores the empty key but the index does not: a restore is stopped
      if and only if a paused task with the empty key finds that key taken. */
  lemma {:induction false} RestoreFailsIff(start: Db, backup: seq<BackupTask>, marker: string)
    requires KeysKept(start, backup)
    ensures RestoreAll(start, backup, marker, false).failed <==> exists b :: b in backup && EmptyKeyTaken(start, b)
  {
    if backup != [] {
      var n, b := |backup| - 1, backup[|backup| - 1];
      RestoreFailsIff(start, backup[..n], marker);
      assert forall c :: c in backup <==> c in backup[..n] || c == b;
      var r := RestoreAll(start, backup[..n], marker, false);
      if !r.failed {
        OthersUntouched(start, backup[..n], marker, b.id);
        if b.dedupKey.Some? {
          OtherKeysHeldAlike(start, backup, marker, n);
        }
      }
    }
  }

  // ----- pause and restore, read off the rows -----

  predicate Waiting(t: Task) {
    t.status.Queued? || t.status.Scheduled? || t.status.Retry?
  }

  ghost predicate PausedRow(r: Task, t: Task, runId: string, now: Time) {
    t == r.(status := Cancelled, lastError := Some("throughput-test-paused:" + runId),
            finishedAt := if r.finishedAt.None? then Some(now) else r.finishedAt,
            lockedBy := None, lockedAt := None, lockedUntil := None)
  }

  /** A backup lists the waiting tasks, each once, in order of id and with what restoring needs. */
  ghost predicate BackupShows(x: Db, backup: seq<BackupTask>) {
    && (forall i, j :: 0 <= i < j < |backup| ==> backup[i].id < backup[j].id)
    && (forall b :: b in backup ==>
          && b.id in x.tasks && Waiting(x.tasks[b.id]) && b.status == x.tasks[b.id].status
          && b.runAfter == Some(x.tasks[b.id].runAfter) && b.dedupKey == x.tasks[b.id].dedupKey)
    && (forall id :: id in x.tasks && Waiting(x.tasks[id]) ==> exists b :: b in backup && b.id == id)
  }

  /** A pause cancels the waiting tasks under its run's name, and a dry run changes nothing. */
  ghost predicate PauseShows(x: Db, y: Db, runId: string, dryRun: bool) {
    && y == x.(tasks := y.tasks) && y.tasks.Keys == x.tasks.Keys
    && forall id :: id in x.tasks ==>
         if !dryRun && Waiting(x.tasks[id]) then PausedRow(x.tasks[id], y.tasks[id], runId, x.now)
         else y.tasks[id] == x.tasks[id]
  }

  lemma BackupIsShown(db: Db, backup: seq<BackupTask>)
    requires IsBackup(db, backup)
    ensures BackupShows(db, backup)
  {
    forall id | id in db.tasks && Waiting(db.tasks[id]) ensures exists b :: b in backup && b.id == id {
      assert BackupOf(id, db.tasks[id]) in backup;
    }
  }

  lemma PauseIsShown(db: Db, backup: seq<BackupTask>, runId: string)
    requires IsBackup(db, backup)
    ensures PauseShows(db, CancelTasks(db, BackedUp(backup), PauseMarker(runId)), runId, false)
  {
    forall id | id in db.tasks ensures Waiting(db.tasks[id]) ==> id in BackedUp(backup) {
      assert Waiting(db.tasks[id]) ==> BackupOf(id, db.tasks[id]) in backup;
    }
  }

  // Another task is in play under the key of the backed-up one, which is not empty.
  ghost predicate Outbid(db: Db, b: BackupTask) {
    && b.dedupKey.Some? && b.dedupKey.value != ""
    && exists h :: h in db.tasks && h != b.id && db.tasks[h].dedupKey == b.dedupKey
                   && (Waiting(db.tasks[h]) || db.tasks[h].status.InProgress?)
  }

  lemma ConflictedIff(db: Db, b: BackupTask)
    ensures Conflicted(db, b) <==> Outbid(db, b)
  {
    if b.dedupKey.Some? {
      forall h: TaskId
        ensures ActiveWithKey(db, h, b.dedupKey.value) <==>
          h in db.tasks && db.tasks[h].dedupKey == b.dedupKey
          && (Waiting(db.tasks[h]) || db.tasks[h].status.InProgress?)
      {
      }
    }
  }

  // The row of a paused task after a restore under this run's name.
  ghost predicate RevivedRow(r: Task, t: Task, b: BackupTask, runId: string) {
    && r.status.Cancelled? && r.lastError.Some? && "throughput-test-paused:" <= r.lastError.value
    && t == r.(status := b.status,
               runAfter := if b.runAfter.Some? then b.runAfter.value else r.runAfter,
               lastError := if r.lastError == Some("throughput-test-paused:" + runId) then None else r.lastError,
               finishedAt := None)
  }

  /** What a restore writes, it writes for an entry of the backup that nobody has outbid: the
      status and the time it was backed up with. */
  lemma {:induction false} RestoreWrites(start: Db, backup: seq<BackupTask>, runId: string, id: TaskId)
    returns (b: BackupTask)
    requires var after := RestoreAll(start, backup, PauseMarker(runId), false).db;
      id in start.tasks && id in after.tasks && after.tasks[id] != start.tasks[id]
    ensures b in backup && b.id == id && !Outbid(start, b)
    ensures RevivedRow(start.tasks[id], RestoreAll(start, backup, PauseMarker(runId), false).db.tasks[id], b, runId)
  {
    var n, marker := |backup| - 1, PauseMarker(runId);
    var before := RestoreAll(start, backup[..n], marker, false).db;
    RestoreIsSafe(start, backup[..n], marker, false);
    ConflictedIff(start, backup[n]);
    if before.tasks[id] != start.tasks[id] {
      b := RestoreWrites(start, backup[..n], runId, id);
      assert !Paused(before.tasks[id]);
    } else {
      b := backup[n];
    }
  }

  ghost function CountOutbid(db: Db, backup: seq<BackupTask>): nat {
    if backup == [] then 0
    else CountOutbid(db, backup[..|backup| - 1]) + if Outbid(db, backup[|backup| - 1]) then 1 else 0
  }

  /** The conflicts a restore reports are the entries outbid when it began. */
  lemma {:induction false} ConflictsAreOutbid(start: Db, backup: seq<BackupTask>, marker: string, dryRun: bool)
    requires !RestoreAll(start, backup, marker, dryRun).failed
    ensures RestoreAll(start, backup, marker, dryRun).conflicts == CountOutbid(start, backup)
  {
    if backup != [] {
      ConflictedIff(start, backup[|backup| - 1]);
      ConflictsAreOutbid(start, backup[..|backup| - 1], marker, dryRun);
    }
  }

  // ----- the operations -----

  // The active rows by key, as the lookup returns them.
  ghost predicate HoldersOf(db: Db, holders: map<string, set<TaskId>>) {
    forall k, h: TaskId :: (k in holders && h in holders[k]) <==> ActiveWithKey(db, h, k)
  }

  class QueueSwapper {
    const db: Database

    constructor (db: Database)
      ensures this.db == db
    {
      this.db := db;
    }

    method BackupPauseable() returns (backup: seq<BackupTask>)
      ensures IsBackup(db.Snapshot(), backup)
    {
      var rest := set id | id in db.tasks && Claimable(db.tasks[id].status);
      backup := [];
      while rest != {}
        invariant rest <= db.tasks.Keys && forall id :: id in rest ==> Claimable(db.tasks[id].status)
        invariant forall b, id :: b in backup && id in rest ==> b.id < id
        invariant forall i, j :: 0 <= i < j < |backup| ==> backup[i].id < backup[j].id
        invariant forall b :: b in backup ==>
          b.id in db.tasks && Claimable(db.tasks[b.id].status) && b == BackupOf(b.id, db.tasks[b.id])
        invariant forall id :: id in db.tasks && Claimable(db.tasks[id].status) && id !in rest ==>
          BackupOf(id, db.tasks[id]) in backup
      {
        var least := LeastOf(rest);
        rest, backup := rest - {least}, backup + [BackupOf(least, db.tasks[least])];
      }
    }

    method LeastOf(ids: set<TaskId>) returns (least: TaskId)
      requires ids != {}
      ensures least in ids && forall id :: id in ids ==> least <= id
    {
      least :| least in ids;
      var rest := ids - {least};
      while rest != {}
        invariant rest <= ids && least in ids && forall id :: id in ids && id !in rest ==> least <= id
      {
        var id :| id in rest;
        rest := rest - {id};
        if id < least {
          least := id;
        }
      }
    }

    /** Backs up every claimable task and, unless it is a dry run, cancels exactly those. */
    method PauseQueue(runId: string, dryRun: bool) returns (backup: seq<BackupTask>, cancelled: nat)
      modifies db`tasks
      ensures IsBackup(old(db.Snapshot()), backup)
      ensures db.Snapshot()
           == if dryRun then old(db.Snapshot())
              else CancelTasks(old(db.Snapshot()), BackedUp(backup), PauseMarker(runId))
      ensures cancelled == if dryRun then 0 else |backup|
      ensures BackupShows(old(db.Snapshot()), backup)
      ensures PauseShows(old(db.Snapshot()), db.Snapshot(), runId, dryRun)
    {
      backup := BackupPauseable();
      BackupIsShown(db.Snapshot(), backup);
      PauseIsShown(db.Snapshot(), backup, runId);
      PauseIsShown(db.Snapshot(), backup, runId);
      if dryRun {
        return backup, 0;
      }
      var ids := set b | b in backup :: b.id;
      var marker, now := PauseMarker(runId), db.now;
      SizeOfBackup(backup);
      db.tasks := map id | id in db.tasks ::
        if id in ids && Claimable(db.tasks[id].status) then CancelledRow(db.tasks[id], marker, now) else db.tasks[id];
      return backup, |ids|;
    }

    // The backed-up tasks whose key another active task has.
    method DedupConflicts(backup: seq<BackupTask>) returns (conflicts: set<TaskId>)
      requires DistinctIds(backup)
      ensures forall b :: b in backup ==> (b.id in conflicts <==> Conflicted(db.Snapshot(), b))
    {
      conflicts := {};
      for i := 0 to |backup|
        invariant forall id :: id in conflicts ==> exists j :: 0 <= j < i && backup[j].id == id
        invariant forall j :: 0 <= j < i ==> (backup[j].id in conflicts <==> Conflicted(db.Snapshot(), backup[j]))
      {
        var b := backup[i];
        if b.dedupKey.Some? && b.dedupKey.value != "" {
          var others := set h | h in db.tasks && h != b.id && ActiveWithKey(db.Snapshot(), h, b.dedupKey.value);
          if others != {} {
            var h :| h in others;
            conflicts := conflicts + {b.id};
          } else {
            assert forall h: TaskId :: ActiveWithKey(db.Snapshot(), h, b.dedupKey.value) && h != b.id ==> h in others;
          }
        }
      }
    }

    /** One update per backed-up task; `failed` is the error the unique index raises. */
    method RestoreQueue(backup: seq<BackupTask>, runId: string, dryRun: bool)
      returns (restored: seq<TaskId>, conflicts: nat, skipped: nat, failed: bool)
      requires DistinctIds(backup)
      modifies db`tasks
      ensures Restore(db.Snapshot(), restored, conflicts, skipped, failed)
           == RestoreAll(old(db.Snapshot()), backup, PauseMarker(runId), dryRun)
    {
      ghost var start := db.Snapshot();
      var marker := PauseMarker(runId);
      var conflicted := DedupConflicts(backup);
      restored, conflicts, skipped, failed := [], 0, 0, false;
      for i := 0 to |backup|
        invariant Restore(db.Snapshot(), restored, conflicts, skipped, failed)
            == RestoreAll(start, backup[..i], marker, dryRun)
      {
        assert backup[..i + 1][..i] == backup[..i];
        if !failed {
          restored, conflicts, skipped, failed :=
            RestoreTask(backup[i], backup[i].id in conflicted, marker, dryRun, restored, conflicts, skipped, start);
        }
      }
      assert backup[..|backup|] == backup;
    }

    method RestoreTask(b: BackupTask, conflicted: bool, marker: string, dryRun: bool, restored: seq<TaskId>,
                       conflicts: nat, skipped: nat, ghost start: Db)
      returns (restored': seq<TaskId>, conflicts': nat, skipped': nat, failed: bool)
      requires conflicted <==> Conflicted(start, b)
      modifies db`tasks
      ensures Restore(db.Snapshot(), restored', conflicts', skipped', failed)
           == RestoreOne(start, Restore(old(db.Snapshot()), restored, conflicts, skipped, false), b, marker, dryRun)
    {
      restored', conflicts', skipped', failed := restored, conflicts, skipped, false;
      if conflicted {
        conflicts' := conflicts + 1;
      } else if !Claimable(b.status) {
        skipped' := skipped + 1;
      } else if dryRun {
        restored' := restored + [b.id];
      } else if b.id !in db.tasks || !Paused(db.tasks[b.id]) {
        skipped' := skipped + 1;
      } else {
        failed := KeyHeldByOther(b.id, db.tasks[b.id].dedupKey);
        if !failed {
          db.tasks := db.tasks[b.id := RestoredRow(db.tasks[b.id], b, marker)];
          restored' := restored + [b.id];
        }
      }
    }

    // The unique index consulted for an update.
    method KeyHeldByOther(id: TaskId, key: Option<string>) returns (held: bool)
      ensures held <==> HeldByOther(db.Snapshot(), id, key)
    {
      if key.None? {
        return false;
      }
      var others := set h | h in db.tasks && h != id && ActiveWithKey(db.Snapshot(), h, key.value);
      assert forall h: TaskId :: ActiveWithKey(db.Snapshot(), h, key.value) && h != id ==> h in others;
      if others != {} {
        var h :| h in others;
        return true;
      }
      return false;
    }

    /** The plan made without the database, from a table of the active rows by key. */
    method PlanRestore(backup: seq<BackupTask>, holders: map<string, set<TaskId>>, ghost table: Db)
      returns (restoreIds: seq<TaskId>, conflicts: seq<TaskId>)
      requires HoldersOf(table, holders)
      ensures restoreIds == Planned(table, backup)
      ensures forall id :: id in conflicts <==>
        exists b :: b in backup && b.id == id && Claimable(b.status) && Conflicted(table, b)
    {
      restoreIds, conflicts := [], [];
      for i := 0 to |backup|
        invariant restoreIds == Planned(table, backup[..i])
        invariant forall id :: id in conflicts <==>
          exists b :: b in backup[..i] && b.id == id && Claimable(b.status) && Conflicted(table, b)
      {
        var b := backup[i];
        assert backup[..i + 1] == backup[..i] + [b];
        if Claimable(b.status) {
          var foreign := {};
          if b.dedupKey.Some? && b.dedupKey.value != "" && b.dedupKey.value in holders {
            foreign := holders[b.dedupKey.value] - {b.id};
          }
          assert foreign != {} <==> Conflicted(table, b) by {
            if Conflicted(table, b) {
              var h: TaskId :| h != b.id && ActiveWithKey(table, h, b.dedupKey.value);
              assert h in foreign;
            }
            if foreign != {} {
              var h :| h in foreign;
              assert ActiveWithKey(table, h, b.dedupKey.value);
            }
          }
          if foreign != {} {
            conflicts := conflicts + [b.id];
          } else {
            restoreIds := restoreIds + [b.id];
          }
        }
      }
      assert backup[..|backup|] == backup;
    }
  }

  lemma {:induction false} SizeOfBackup(backup: seq<BackupTask>)
    requires forall i, j :: 0 <= i < j < |backup| ==> backup[i].id < backup[j].id
    ensures |BackedUp(backup)| == |backup|
  {
    if backup != [] {
      var n := |backup| - 1;
      SizeOfBackup(backup[..n]);
      assert backup[n].id !in BackedUp(backup[..n]);
      assert BackedUp(backup) == BackedUp(backup[..n]) + {backup[n].id};
    }
  }
}
