/** The repositories as objects over one shared database. Each method is proved to have the
    effect of the corresponding statement function, so what the other modules prove about
    those functions holds of the methods. */
module Repositories {
  import opened Schema
  import opened ErrorCodes
  import opened QueueTable
  import opened AccountTable
  import opened Effects
  import opened UsageLog
  import opened Watchdog
  import opened Enqueueing

  class Database {
    const types: map<string, TaskType>
    const thresholdOverride: Option<int>
    var tasks: map<TaskId, Task>
    var nextTask: TaskId
    var accounts: map<AccountId, Account>
    var usage: seq<UsageRow>
    var attempts: seq<Attempt>
    var now: Time

    function Snapshot(): Db
      reads this
    {
      Db(types, thresholdOverride, tasks, nextTask, accounts, usage, attempts, now)
    }

    constructor (types: map<string, TaskType>, thresholdOverride: Option<int>, now: Time)
      ensures Snapshot() == Db(types, thresholdOverride, map[], 0, map[], [], [], now)
    {
      this.types, this.thresholdOverride := types, thresholdOverride;
      this.tasks, this.nextTask, this.accounts := map[], 0, map[];
      this.usage, this.attempts, this.now := [], [], now;
    }
  }

  // What the watchdog reports of a task it closed; the lock is already gone when it is read.
  datatype StuckResult = StuckResult(id: TaskId, outcome: TaskStatus, lockedBy: Option<Locker>, attemptCount: nat,
                                     watchdogRetries: nat)

  function ReportOf(db: Db, id: TaskId): StuckResult
    requires id in db.tasks
  {
    var t := db.tasks[id];
    StuckResult(id, t.status, t.lockedBy, t.attemptCount, t.payload.watchdogRetries)
  }

  function Members(ids: seq<TaskId>): set<TaskId> {
    set id | id in ids
  }

  function IdsOf(results: seq<StuckResult>): set<TaskId> {
    set r | r in results :: r.id
  }

  function Reports(db: Db, ids: seq<TaskId>): (r: seq<StuckResult>)
    requires forall id :: id in ids ==> id in db.tasks
    ensures |r| == |ids| && forall i :: 0 <= i < |r| ==> r[i] == ReportOf(db, ids[i])
  {
    seq(|ids|, i requires 0 <= i < |ids| => ReportOf(db, ids[i]))
  }

  lemma ReportsCoverBatch(db: Db, ids: seq<TaskId>)
    requires forall id :: id in ids ==> id in db.tasks
    ensures IdsOf(Reports(db, ids)) == Members(ids)
    ensures forall r :: r in Reports(db, ids) ==> r.id in ids && r == ReportOf(db, r.id)
  {
    var results := Reports(db, ids);
    forall id | id in ids ensures exists r :: r in results && r.id == id {
      var i :| 0 <= i < |ids| && ids[i] == id;
      assert results[i] in results;
    }
  }

  ghost predicate TakenSoFar(db: Db, limit: nat, batch: seq<TaskId>, rest: set<TaskId>) {
    var taken := Members(batch);
    && |taken| == |batch| <= limit
    && taken !! rest && taken + rest == TimedOutTasks(db) && |taken| + |rest| == |TimedOutTasks(db)|
    && forall a, b :: a in taken && b in rest ==> Older(db, a, b)
  }

  lemma TakeOneMore(db: Db, limit: nat, batch: seq<TaskId>, rest: set<TaskId>, oldest: TaskId)
    requires TakenSoFar(db, limit, batch, rest) && |batch| < limit
    requires rest <= TimedOutTasks(db) && oldest in rest && forall id :: id in rest ==> Older(db, oldest, id)
    ensures TakenSoFar(db, limit, batch + [oldest], rest - {oldest})
  {
    assert Members(batch + [oldest]) == Members(batch) + {oldest};
  }

  lemma MarkedRowIsUnlocked(db: Db, batch: set<TaskId>, policy: AutoRetry, id: TaskId)
    requires id in batch && id in db.tasks
    ensures MarkTimedOut(db, batch, policy).tasks[id].lockedBy.None?
  {
  }

  class TaskQueueRepo {
    const db: Database

    constructor (db: Database)
      ensures this.db == db
    {
      this.db := db;
    }

    /** Any one of the ready tasks of the highest ready priority, or none if none is ready. */
    method ClaimNext(lock: Locker, ttl: int, codes: Option<set<string>>) returns (claimed: Option<TaskId>)
      modifies db
      ensures claimed.Some? ==> ClaimChoice(old(db.Snapshot()), codes, claimed.value)
                                && db.Snapshot() == Claim(old(db.Snapshot()), claimed.value, lock, ttl)
      ensures claimed.None? ==>
        db.Snapshot() == old(db.Snapshot()) && forall id: TaskId :: !Ready(old(db.Snapshot()), id, codes)
    {
      var rest := db.tasks.Keys;
      claimed := None;
      while rest != {}
        invariant rest <= db.tasks.Keys
        invariant claimed.Some? ==> Ready(db.Snapshot(), claimed.value, codes)
        invariant forall id: TaskId :: Ready(db.Snapshot(), id, codes) && id !in rest ==>
          claimed.Some? && db.tasks[id].priority <= db.tasks[claimed.value].priority
      {
        var id :| id in rest;
        rest := rest - {id};
        if Ready(db.Snapshot(), id, codes)
            && (claimed.None? || db.tasks[claimed.value].priority < db.tasks[id].priority) {
          claimed := Some(id);
        }
      }
      if claimed.Some? {
        db.tasks := db.tasks[claimed.value := ClaimedRow(db.tasks[claimed.value], lock, ttl, db.now)];
      }
    }

    /** complete, fail, reschedule_or_fail and postpone: the new status, or none when the row
        is no longer this caller's. */
    method Finish(id: TaskId, how: Finisher, lock: Option<Locker>) returns (status: Option<TaskStatus>)
      modifies db`tasks
      ensures db.Snapshot() == FinishTask(old(db.Snapshot()), id, how, lock)
      ensures status == if CanFinish(old(db.Snapshot()), id, how, lock) then Some(db.tasks[id].status) else None
    {
      if !CanFinish(db.Snapshot(), id, how, lock) {
        return None;
      }
      var t := db.tasks[id];
      db.tasks := db.tasks[id := FinishedRow(t, how, MaxPostpones(db.Snapshot(), t), db.now)];
      return Some(db.tasks[id].status);
    }

    // None stands for the error raised when the row is no longer this caller's.
    method BeginExecutionAttempt(id: TaskId, lock: Option<Locker>) returns (number: Option<nat>)
      modifies db`tasks
      ensures db.Snapshot() == BeginAttempt(old(db.Snapshot()), id, lock)
      ensures number == if Fenced(old(db.Snapshot()), id, lock) then Some(old(db.tasks)[id].attemptCount + 1) else None
    {
      if !Fenced(db.Snapshot(), id, lock) {
        return None;
      }
      var t := db.tasks[id];
      db.tasks := db.tasks[id := t.(attemptCount := t.attemptCount + 1)];
      return Some(t.attemptCount + 1);
    }

    method Assign(id: TaskId, account: Option<AccountId>, lock: Option<Locker>)
      modifies db`tasks
      ensures db.Snapshot() == AssignAccount(old(db.Snapshot()), id, account, lock)
    {
      if Fenced(db.Snapshot(), id, lock) {
        db.tasks := db.tasks[id := db.tasks[id].(accountId := account)];
      }
    }

    method CommitStep(id: TaskId, step: string, lock: Option<Locker>)
      modifies db`tasks
      ensures db.Snapshot() == SetLastCompletedStep(old(db.Snapshot()), id, step, lock)
    {
      if Fenced(db.Snapshot(), id, lock) {
        var t := db.tasks[id];
        db.tasks := db.tasks[id := t.(payload := t.payload.(lastCompletedStep := Some(step)))];
      }
    }

    method ReleaseOrphanAccountLocks() returns (released: nat)
      modifies db`accounts
      ensures db.Snapshot() == ReleaseOrphans(old(db.Snapshot()))
      ensures released == |set a | a in old(db.accounts) && Orphaned(old(db.Snapshot()), a)|
      ensures db.accounts.Keys == old(db.accounts.Keys) && forall a :: a in db.accounts ==>
        var was := old(db.accounts)[a].currentTask;
        var live := was.Some? && was.value in db.tasks && db.tasks[was.value].status.InProgress?;
        db.accounts[a] == old(db.accounts)[a].(currentTask := if live then was else None)
    {
      var before := db.Snapshot();
      var orphans := set a | a in db.accounts && Orphaned(before, a);
      db.accounts := map a | a in db.accounts ::
        if a in orphans then db.accounts[a].(currentTask := None) else db.accounts[a];
      assert db.accounts == ReleaseOrphans(before).accounts;
      return |orphans|;
    }

    method PickOldest(candidates: set<TaskId>) returns (oldest: TaskId)
      requires candidates != {} && forall id :: id in candidates ==> TimedOutTask(db.Snapshot(), id)
      ensures oldest in candidates && forall id :: id in candidates ==> Older(db.Snapshot(), oldest, id)
    {
      var snapshot := db.Snapshot();
      oldest :| oldest in candidates;
      var rest := candidates - {oldest};
      while rest != {}
        invariant oldest in candidates && rest <= candidates
        invariant forall id :: id in candidates && id !in rest ==> Older(snapshot, oldest, id)
      {
        var id :| id in rest;
        rest := rest - {id};
        if !Older(snapshot, oldest, id) {
          oldest := id;
        }
      }
    }

    // ORDER BY ... LIMIT: take the oldest remaining task until the limit is reached.
    method OldestTimedOut(limit: nat) returns (batch: seq<TaskId>)
      ensures OldestBatch(db.Snapshot(), limit, Members(batch)) && |Members(batch)| == |batch|
    {
      var snapshot := db.Snapshot();
      var rest := TimedOutTasks(snapshot);
      batch := [];
      assert Members([]) == {};
      while |batch| < limit && rest != {}
        invariant TakenSoFar(snapshot, limit, batch, rest)
        decreases |rest|
      {
        var oldest := PickOldest(rest);
        TakeOneMore(snapshot, limit, batch, rest, oldest);
        batch, rest := batch + [oldest], rest - {oldest};
      }
      assert TimedOutTasks(snapshot) - Members(batch) == rest;
    }

    /** One statement: close the oldest timed-out tasks, free their accounts, report each. */
    method MarkStuckTimedOut(limit: nat, policy: AutoRetry) returns (results: seq<StuckResult>)
      modifies db
      ensures var before := old(db.Snapshot());
        var batch := IdsOf(results);
        && OldestBatch(before, limit, batch) && |results| == |batch|
        && db.Snapshot() == MarkTimedOut(before, batch, policy)
      ensures forall r :: r in results ==> r.id in db.tasks && r == ReportOf(db.Snapshot(), r.id) && r.lockedBy.None?
    {
      ghost var before := db.Snapshot();
      var batch := OldestTimedOut(limit);
      assert Members(batch) <= TimedOutTasks(before);
      MarkBatch(Members(batch), policy);
      assert forall id :: id in batch ==> id in Members(batch);
      results := Reports(db.Snapshot(), batch);
      ReportsCoverBatch(db.Snapshot(), batch);
      forall r | r in results ensures r.lockedBy.None? {
        MarkedRowIsUnlocked(before, Members(batch), policy, r.id);
      }
    }

    method MarkBatch(ids: set<TaskId>, policy: AutoRetry)
      modifies db`tasks, db`accounts
      ensures db.Snapshot() == MarkTimedOut(old(db.Snapshot()), ids, policy)
    {
      ghost var before := db.Snapshot();
      db.tasks := map id | id in db.tasks ::
        if id in ids then MarkedRow(db.tasks[id], policy, db.now) else db.tasks[id];
      db.accounts := map a | a in db.accounts ::
        var row := db.accounts[a];
        if row.currentTask.Some? && row.currentTask.value in ids then row.(currentTask := None) else row;
      assert db.Snapshot() == MarkTimedOut(before, ids, policy);
    }

    method FindActive(key: string) returns (id: Option<TaskId>)
      ensures id == OldestActive(db.Snapshot(), Some(key))
      ensures id.Some? <==> KeyTaken(db.Snapshot(), Some(key))
    {
      var rest := set id | id in db.tasks && ActiveWithKey(db.Snapshot(), id, key);
      ghost var all := ActiveIds(db.Snapshot(), key);
      assert rest == all;
      id := None;
      while rest != {}
        invariant rest <= all && (id.Some? ==> id.value in all)
        invariant forall x :: x in all && x !in rest ==> id.Some? && id.value <= x
      {
        var x :| x in rest;
        rest := rest - {x};
        if id.None? || x < id.value {
          id := Some(x);
        }
      }
      assert forall x: TaskId :: ActiveWithKey(db.Snapshot(), x, key) <==> x in all;
      assert id.Some? ==> id.value in all && Smallest(all) in all;
    }

    // The newest task of the key, if it failed with a fatal code.
    method FindFatal(key: string) returns (id: Option<TaskId>)
      ensures id == NewestFatal(db.Snapshot(), key)
    {
      var rest := set id | id in db.tasks && HoldsKey(db.Snapshot(), id, key);
      ghost var all := IdsWithKey(db.Snapshot(), key);
      assert rest == all;
      id := None;
      while rest != {}
        invariant rest <= all && (id.Some? ==> id.value in all)
        invariant forall x :: x in all && x !in rest ==> id.Some? && x <= id.value
      {
        var x :| x in rest;
        rest := rest - {x};
        if id.None? || id.value < x {
          id := Some(x);
        }
      }
      assert forall x: TaskId :: HoldsKey(db.Snapshot(), x, key) <==> x in all;
      assert id.Some? ==> id.value == Largest(all) && IsNewest(db.Snapshot(), id.value, key);
      if id.Some? && !FailedFatally(db.tasks[id.value]) {
        id := None;
      }
    }

    method Enqueue(item: NewTask, skip: bool) returns (r: EnqueueResult)
      modifies db`tasks, db`nextTask
      ensures db.Snapshot() == EnqueueDb(old(db.Snapshot()), item, skip)
      ensures r == EnqueueReport(old(db.Snapshot()), item, skip)
      ensures EnqueueShows(old(db.Snapshot()), db.Snapshot(), item, skip, r)
    {
      EnqueueIsShown(db.Snapshot(), item, skip);
      if item.typeCode !in db.types || !db.types[item.typeCode].enabled {
        return UnknownType;
      }
      if skip && item.dedupKey.Some? && item.dedupKey.value != "" {
        var fatal := FindFatal(item.dedupKey.value);
        if fatal.Some? {
          return SkippedFatal(fatal.value, FatalCode(db.Snapshot(), fatal.value));
        }
      }
      var taken: Option<TaskId> := None;
      if item.dedupKey.Some? {
        taken := FindActive(item.dedupKey.value);
      }
      var id := db.nextTask;
      db.nextTask := id + 1;
      if taken.Some? {
        return AlreadyActive(taken);
      }
      db.tasks := db.tasks[id := QueuedRow(db.Snapshot(), item)];
      return Created(id);
    }

    // One query for the newest task of each key, keys stripped and repeated ones dropped.
    method FindFatalBatch(keys: seq<string>) returns (fatals: map<string, TaskId>)
      ensures FatalsOf(db.Snapshot(), keys, fatals)
    {
      fatals := map[];
      var seen: set<string> := {};
      for i := 0 to |keys|
        invariant forall k :: k in seen <==> k != "" && exists raw :: raw in keys[..i] && Strip(raw) == k
        invariant forall k :: (k in fatals <==> k in seen && NewestFatal(db.Snapshot(), k).Some?)
                              && (k in fatals ==> NewestFatal(db.Snapshot(), k) == Some(fatals[k]))
      {
        var key := Strip(keys[i]);
        assert keys[..i + 1] == keys[..i] + [keys[i]];
        if key != "" && key !in seen {
          var id := FindFatal(key);
          seen := seen + {key};
          if id.Some? {
            fatals := fatals[key := id.value];
          }
        }
      }
      assert keys[..|keys|] == keys;
    }

    method LookUpHistory(items: seq<NewTask>, skip: bool) returns (results: array<Option<EnqueueResult>>)
      ensures fresh(results) && results.Length == |items|
      ensures forall i :: 0 <= i < |items| ==> results[i] == HistoryReport(db.Snapshot(), items[i], skip)
    {
      results := new Option<EnqueueResult>[|items|](_ => None);
      if skip {
        var fatals := FindFatalBatch(KeysOf(items));
        LookupReportsHistory(db.Snapshot(), items, fatals);
        for i := 0 to |items|
          invariant forall j :: 0 <= j < i ==> results[j] == LookupReport(db.Snapshot(), fatals, items[j])
        {
          results[i] := LookupReport(db.Snapshot(), fatals, items[i]);
        }
        assert forall i :: 0 <= i < |items| ==> items[i] in items;
      }
    }

    // One INSERT ... ON CONFLICT DO NOTHING for the items without a report yet.
    method InsertMany(items: seq<NewTask>, skip: bool, results: array<Option<EnqueueResult>>)
      returns (created: map<string, TaskId>)
      requires results.Length == |items|
      requires forall i :: 0 <= i < |items| ==> items[i].typeCode in db.types && HasKey(items[i])
      requires forall i :: 0 <= i < |items| ==> results[i] == HistoryReport(db.Snapshot(), items[i], skip)
      modifies db`tasks, db`nextTask
      ensures db.Snapshot() == BatchDb(old(db.Snapshot()), items, skip)
      ensures CreatedSoFar(old(db.Snapshot()), items, skip, created)
    {
      ghost var before := db.Snapshot();
      created := map[];
      for i := 0 to |items|
        invariant db.Snapshot() == BatchDb(before, items[..i], skip)
        invariant CreatedSoFar(before, items[..i], skip, created)
      {
        assert items[..i + 1][..i] == items[..i];
        if results[i].None? {
          var key, id := items[i].dedupKey.value, db.nextTask;
          var taken := FindActive(key);
          db.nextTask := id + 1;
          if taken.None? {
            db.tasks := db.tasks[id := QueuedRow(db.Snapshot(), items[i])];
            created := created[key := id];
          }
        }
      }
      assert items[..|items|] == items;
    }

    method FillReports(items: seq<NewTask>, skip: bool, results: array<Option<EnqueueResult>>,
                       created: map<string, TaskId>, ghost before: Db)
      requires results.Length == |items|
      requires forall i :: 0 <= i < |items| ==> items[i].typeCode in before.types && HasKey(items[i])
      requires forall i :: 0 <= i < |items| ==> results[i] == HistoryReport(before, items[i], skip)
      requires db.Snapshot() == BatchDb(before, items, skip) && CreatedSoFar(before, items, skip, created)
      modifies results
      ensures forall i :: 0 <= i < |items| ==> results[i] == Some(BatchReport(before, items, skip, i))
    {
      for i := 0 to |items|
        invariant forall j :: 0 <= j < i ==> results[j] == Some(BatchReport(before, items, skip, j))
        invariant forall j :: i <= j < |items| ==> results[j] == HistoryReport(before, items[j], skip)
      {
        if results[i].None? {
          var key := items[i].dedupKey.value;
          if key in created {
            results[i] := Some(Created(created[key]));
          } else {
            var existing := FindActive(key);
            results[i] := Some(AlreadyActive(existing));
          }
        }
      }
    }

    /** None is the error for an unknown type or a missing key, before anything is stored. */
    method EnqueueMany(items: seq<NewTask>, skip: bool) returns (r: Option<seq<EnqueueResult>>)
      modifies db`tasks, db`nextTask
      ensures var before := old(db.Snapshot());
        && (r.None? <==> exists item :: item in items && !(TypeEnabled(before, item.typeCode) && HasKey(item)))
        && (r.None? ==> db.Snapshot() == before)
        && (r.Some? ==>
              && db.Snapshot() == BatchDb(before, items, skip) && |r.value| == |items|
              && forall i :: 0 <= i < |items| ==> r.value[i] == BatchReport(before, items, skip, i))
    {
      ghost var before := db.Snapshot();
      for i := 0 to |items|
        invariant forall item :: item in items[..i] ==> TypeEnabled(before, item.typeCode)
      {
        if items[i].typeCode !in db.types || !db.types[items[i].typeCode].enabled {
          assert items[i] in items;
          return None;
        }
      }
      assert items[..|items|] == items;
      var results := LookUpHistory(items, skip);
      for i := 0 to |items|
        invariant forall item :: item in items[..i] ==> HasKey(item)
      {
        if !HasKey(items[i]) {
          assert items[i] in items;
          return None;
        }
      }
      assert forall item :: item in items ==> TypeEnabled(before, item.typeCode) && HasKey(item);
      var created := InsertMany(items, skip, results);
      FillReports(items, skip, results, created, before);
      var reports: seq<EnqueueResult> := [];
      for i := 0 to |items|
        invariant |reports| == i && forall j :: 0 <= j < i ==> reports[j] == BatchReport(before, items, skip, j)
      {
        reports := reports + [results[i].value];
      }
      return Some(reports);
    }
  }

  class StuckTaskWatchdog {
    const queue: TaskQueueRepo
    const batchLimit: nat
    const autoRetry: AutoRetry

    constructor (queue: TaskQueueRepo, batchLimit: nat, autoRetry: AutoRetry)
      ensures this.queue == queue && this.batchLimit == batchLimit && this.autoRetry == autoRetry
    {
      this.queue, this.batchLimit, this.autoRetry := queue, batchLimit, autoRetry;
    }

    /** One tick is one Pass over the oldest timed-out tasks; its counts add up. */
    method TickOnce() returns (results: seq<StuckResult>, orphans: nat)
      modifies queue.db
      ensures var before := old(queue.db.Snapshot());
        var batch := IdsOf(results);
        && OldestBatch(before, batchLimit, batch) && |results| == |batch|
        && queue.db.Snapshot() == Pass(before, batch, autoRetry)
        && PassShows(before, queue.db.Snapshot(), batch, batchLimit, autoRetry)
      ensures ReservationsAreLive(queue.db.Snapshot())
      ensures forall r :: r in results ==> r.id in queue.db.tasks && r == ReportOf(queue.db.Snapshot(), r.id)
      ensures orphans == |set a | a in old(queue.db.accounts) && Orphaned(old(queue.db.Snapshot()), a)|
    {
      ghost var before := queue.db.Snapshot();
      orphans := queue.ReleaseOrphanAccountLocks();
      results := queue.MarkStuckTimedOut(batchLimit, autoRetry);
      ghost var batch := IdsOf(results);
      SweepKeepsBatch(before, batchLimit, batch);
      PassStabilises(before, batch, autoRetry);
      PassIsShown(before, batch, batchLimit, autoRetry);
    }

    /** The background loop, while the clock stands still: every tick takes its batch off the
        backlog, and after the first one every reservation is live. */
    method Run(ticks: nat)
      modifies queue.db
      ensures |TimedOutTasks(queue.db.Snapshot())| == Left(|TimedOutTasks(old(queue.db.Snapshot()))|, ticks, batchLimit)
      ensures ticks > 0 ==> ReservationsAreLive(queue.db.Snapshot())
    {
      ghost var backlog := |TimedOutTasks(queue.db.Snapshot())|;
      for i := 0 to ticks
        invariant |TimedOutTasks(queue.db.Snapshot())| == Left(backlog, i, batchLimit)
        invariant i > 0 ==> ReservationsAreLive(queue.db.Snapshot())
      {
        ghost var before := queue.db.Snapshot();
        var results, _ := TickOnce();
        PassClearsBatch(before, IdsOf(results), autoRetry);
        OneFewer(backlog, i + 1, batchLimit);
      }
    }
  }

  class AccountsRepo {
    const db: Database

    constructor (db: Database)
      ensures this.db == db
    {
      this.db := db;
    }

    method ReserveOne(account: AccountId, task: TaskId) returns (ok: bool)
      modifies db`accounts
      ensures db.Snapshot() == Reserve(old(db.Snapshot()), account, task)
      ensures ok == CanReserve(old(db.Snapshot()), account)
    {
      if account !in db.accounts {
        return false;
      }
      var row := db.accounts[account];
      if row.currentTask.Some? || (row.cooldownUntil.Some? && row.cooldownUntil.value > db.now) {
        return false;
      }
      db.accounts := db.accounts[account := row.(currentTask := Some(task), lastUsedAt := Some(db.now))];
      return true;
    }

    /** A transaction of two reservations. Once both rows are locked the second cannot be
        refused, so the source's rollback path is dead. */
    method ReserveBoth(source: AccountId, target: AccountId, task: TaskId) returns (ok: bool)
      modifies db`accounts
      ensures db.Snapshot() == ReservePair(old(db.Snapshot()), source, target, task)
      ensures ok == CanReservePair(old(db.Snapshot()), source, target)
    {
      if source == target || !PairLockable(db.Snapshot(), source, target) {
        return false;
      }
      var gotSource := ReserveOne(source, task);
      if !gotSource {
        return false;
      }
      var gotTarget := ReserveOne(target, task);
      assert gotTarget;
      return true;
    }

    method ReleaseFor(account: AccountId, task: TaskId)
      modifies db`accounts
      ensures db.Snapshot() == Release(old(db.Snapshot()), account, task)
    {
      if account in db.accounts && db.accounts[account].currentTask == Some(task) {
        db.accounts := db.accounts[account := db.accounts[account].(currentTask := None)];
      }
    }

    /** Reserves the least recently used account that may be picked; none if there is none. */
    method PickAndReserve(task: TaskId, excluded: set<AccountId>) returns (picked: Option<AccountId>)
      modifies db`accounts
      ensures picked.Some? ==> IsLruPick(old(db.Snapshot()), excluded, picked.value)
                               && db.Snapshot() == TakePicked(old(db.Snapshot()), picked.value, task)
      ensures picked.None? ==> db.Snapshot() == old(db.Snapshot())
                               && forall a :: Pickable(old(db.Snapshot()), a) ==> a in excluded
    {
      var rest := db.accounts.Keys;
      picked := None;
      while rest != {}
        invariant rest <= db.accounts.Keys
        invariant picked.Some? ==> Pickable(db.Snapshot(), picked.value) && picked.value !in excluded
        invariant forall a :: Pickable(db.Snapshot(), a) && a !in excluded && a !in rest ==>
          picked.Some? && UsedBefore(db.Snapshot(), picked.value, a)
      {
        var a :| a in rest;
        rest := rest - {a};
        if Pickable(db.Snapshot(), a) && a !in excluded
            && (picked.None? || UsedBefore(db.Snapshot(), a, picked.value)) {
          picked := Some(a);
        }
      }
      if picked.Some? {
        var row := db.accounts[picked.value];
        db.accounts := db.accounts[picked.value := row.(currentTask := Some(task), lastUsedAt := Some(db.now),
                                                        status := Usable)];
      }
    }

    method MarkBanned(account: AccountId)
      modifies db`accounts
      ensures db.Snapshot() == SetBanned(old(db.Snapshot()), account)
    {
      if account in db.accounts {
        var row := db.accounts[account];
        db.accounts := db.accounts[account := row.(status := Banned, isEnabled := false, cooldownUntil := None,
                                                   currentTask := None)];
      }
    }

    method MarkBroken(account: AccountId)
      modifies db`accounts
      ensures db.Snapshot() == SetAccountError(old(db.Snapshot()), account)
    {
      if account in db.accounts && !db.accounts[account].status.Banned? {
        var row := db.accounts[account];
        db.accounts := db.accounts[account := row.(status := Error, isEnabled := false, currentTask := None)];
      }
    }

    method Cool(account: AccountId, until: Time)
      modifies db`accounts
      ensures db.Snapshot() == SetCooldown(old(db.Snapshot()), account, until)
    {
      if account in db.accounts {
        var row := db.accounts[account];
        var shorter := row.cooldownUntil.None? || row.cooldownUntil.value < until;
        var later := if shorter then Some(until) else row.cooldownUntil;
        db.accounts := db.accounts[account := row.(cooldownUntil := later,
                                                   status := if row.status.Banned? then Banned else Cooldown)];
      }
    }
  }

  /** Charging every enabled operation of a task to the account of its role, in order; it
      stops with an error at the first operation whose role has no account. */
  function ChargeAll(db: Db, ops: seq<TypeOp>, byRole: map<Role, AccountId>, task: TaskId): Db
    decreases |ops|
  {
    if ops == [] then db
    else if !ops[0].enabled then ChargeAll(db, ops[1..], byRole, task)
    else if ops[0].role !in byRole then db
    else ChargeAll(Charge(db, byRole[ops[0].role], ops[0], task), ops[1..], byRole, task)
  }

  predicate RolesCovered(ops: seq<TypeOp>, byRole: map<Role, AccountId>) {
    forall op :: op in ops && op.enabled ==> op.role in byRole
  }

  // ----- what is charged, row by row -----

  predicate Listed(at: seq<nat>, i: nat) {
    i in at
  }

  /** The positions of the enabled operations before `stop`, in order. */
  ghost predicate EnabledBefore(ops: seq<TypeOp>, stop: nat, at: seq<nat>) {
    && stop <= |ops|
    && (forall k :: 0 <= k < |at| ==> at[k] < stop && ops[at[k]].enabled)
    && (forall k, l :: 0 <= k < l < |at| ==> at[k] < at[l])
    && (forall i: nat {:trigger Listed(at, i)} :: i < stop && ops[i].enabled ==> Listed(at, i))
  }

  // Every enabled operation before `stop` has an account; at `stop` one has none, or the list ends.
  ghost predicate StopsAt(ops: seq<TypeOp>, byRole: map<Role, AccountId>, stop: nat) {
    && stop <= |ops|
    && (forall i :: 0 <= i < stop && ops[i].enabled ==> ops[i].role in byRole)
    && (stop < |ops| ==> ops[stop].enabled && ops[stop].role !in byRole)
  }

  ghost predicate RowsAt(ops: seq<TypeOp>, byRole: map<Role, AccountId>, task: TaskId, now: Time, rows: seq<UsageRow>,
                         at: seq<nat>, stop: nat) {
    && EnabledBefore(ops, stop, at) && StopsAt(ops, byRole, stop) && |rows| == |at|
    && forall k :: 0 <= k < |at| ==>
         rows[k] == UsageRow(byRole[ops[at[k]].role], ops[at[k]].opId, task, ops[at[k]].units, now)
  }

  /** One row for each enabled operation, in order, with its units, charged to the account of
      its role, up to the first operation whose role has no account. */
  ghost predicate PaysFor(ops: seq<TypeOp>, byRole: map<Role, AccountId>, task: TaskId, now: Time,
                          rows: seq<UsageRow>) {
    exists at: seq<nat>, stop: nat :: RowsAt(ops, byRole, task, now, rows, at, stop)
  }

  lemma EnabledOneMore(ops: seq<TypeOp>, i: nat, at: seq<nat>)
    requires i < |ops| && EnabledBefore(ops, i, at)
    ensures EnabledBefore(ops, i + 1, if ops[i].enabled then at + [i] else at)
  {
    var more := if ops[i].enabled then at + [i] else at;
    forall k | 0 <= k < |more| ensures more[k] < i + 1 && ops[more[k]].enabled {
      assert k < |at| ==> more[k] == at[k];
    }
    forall k, l | 0 <= k < l < |more| ensures more[k] < more[l] {
      assert k < |at| && more[k] == at[k];
    }
    forall j: nat | j < i + 1 && ops[j].enabled ensures Listed(more, j) {
      assert j < i ==> Listed(at, j);
    }
  }

  // The rows of the enabled operations before i, all of whose roles have an account.
  ghost predicate PaidUpTo(ops: seq<TypeOp>, byRole: map<Role, AccountId>, task: TaskId, now: Time, rows: seq<UsageRow>,
                           at: seq<nat>, i: nat) {
    && EnabledBefore(ops, i, at) && |rows| == |at|
    && (forall j :: 0 <= j < i && ops[j].enabled ==> ops[j].role in byRole)
    && forall k :: 0 <= k < |at| ==>
         rows[k] == UsageRow(byRole[ops[at[k]].role], ops[at[k]].opId, task, ops[at[k]].units, now)
  }

  lemma PaidOneMore(ops: seq<TypeOp>, byRole: map<Role, AccountId>, task: TaskId, now: Time, rows: seq<UsageRow>,
                    at: seq<nat>, i: nat)
    requires i < |ops| && PaidUpTo(ops, byRole, task, now, rows, at, i) && ops[i].enabled && ops[i].role in byRole
    ensures PaidUpTo(ops, byRole, task, now,
                     rows + [UsageRow(byRole[ops[i].role], ops[i].opId, task, ops[i].units, now)], at + [i], i + 1)
  {
    EnabledOneMore(ops, i, at);
  }

  lemma SkippedOneMore(ops: seq<TypeOp>, byRole: map<Role, AccountId>, task: TaskId, now: Time, rows: seq<UsageRow>,
                       at: seq<nat>, i: nat)
    requires i < |ops| && PaidUpTo(ops, byRole, task, now, rows, at, i) && !ops[i].enabled
    ensures PaidUpTo(ops, byRole, task, now, rows, at, i + 1)
  {
    EnabledOneMore(ops, i, at);
  }

  /** What charging a whole task writes. */
  lemma ChargeAllPays(db: Db, ops: seq<TypeOp>, byRole: map<Role, AccountId>, task: TaskId)
    returns (rows: seq<UsageRow>)
    ensures ChargeAll(db, ops, byRole, task) == db.(usage := db.usage + rows)
    ensures PaysFor(ops, byRole, task, db.now, rows)
  {
    var i: nat, at: seq<nat> := 0, [];
    rows := [];
    assert db.usage + [] == db.usage && ops[0..] == ops;
    while i < |ops| && (ops[i].enabled ==> ops[i].role in byRole)
      invariant i <= |ops| && PaidUpTo(ops, byRole, task, db.now, rows, at, i)
      invariant ChargeAll(db, ops, byRole, task)
             == ChargeAll(db.(usage := db.usage + rows), ops[i..], byRole, task)
    {
      assert ops[i..][0] == ops[i] && ops[i..][1..] == ops[i + 1..];
      if ops[i].enabled {
        var row := UsageRow(byRole[ops[i].role], ops[i].opId, task, ops[i].units, db.now);
        PaidOneMore(ops, byRole, task, db.now, rows, at, i);
        assert db.usage + rows + [row] == db.usage + (rows + [row]);
        rows, at := rows + [row], at + [i];
      } else {
        SkippedOneMore(ops, byRole, task, db.now, rows, at, i);
      }
      i := i + 1;
    }
    assert RowsAt(ops, byRole, task, db.now, rows, at, i);
  }

  class ResourceUsageRepo {
    const db: Database

    constructor (db: Database)
      ensures this.db == db
    {
      this.db := db;
    }

    method RecordOp(account: AccountId, op: TypeOp, task: TaskId)
      modifies db`usage
      ensures db.Snapshot() == Charge(old(db.Snapshot()), account, op, task)
    {
      db.usage := db.usage + [UsageRow(account, op.opId, task, op.units, db.now)];
    }

    method RecordForTask(ops: seq<TypeOp>, byRole: map<Role, AccountId>, task: TaskId) returns (ok: bool)
      modifies db`usage
      ensures db.Snapshot() == ChargeAll(old(db.Snapshot()), ops, byRole, task)
      ensures exists rows :: PaysFor(ops, byRole, task, db.now, rows) && db.usage == old(db.usage) + rows
      ensures ok <==> RolesCovered(ops, byRole)
    {
      ghost var before := db.Snapshot();
      ghost var rows := ChargeAllPays(before, ops, byRole, task);
      var i := 0;
      while i < |ops|
        invariant 0 <= i <= |ops|
        invariant ChargeAll(before, ops, byRole, task) == ChargeAll(db.Snapshot(), ops[i..], byRole, task)
        invariant RolesCovered(ops[..i], byRole)
      {
        assert ops[i..][0] == ops[i] && ops[i..][1..] == ops[i + 1..] && ops[..i + 1] == ops[..i] + [ops[i]];
        if ops[i].enabled {
          if ops[i].role !in byRole {
            return false;
          }
          RecordOp(byRole[ops[i].role], ops[i], task);
        }
        i := i + 1;
      }
      assert ops[..i] == ops;
      return true;
    }
  }

  class ResourceChecker {
    const db: Database

    constructor (db: Database)
      ensures this.db == db
    {
      this.db := db;
    }

    /** The early-return scan over the operations of one role. */
    method Check(account: AccountId, tt: TaskType, role: Role) returns (r: CheckResult)
      ensures r == CheckAccount(db.Snapshot(), account, tt, role)
      ensures r.CheckOk? <==> WithinBudget(db.Snapshot(), account, tt, role)
      ensures CheckAnswers(db.Snapshot(), account, tt, role, r)
    {
      CheckPassesIff(db.Snapshot(), account, tt, role);
      CheckNamesFirst(db.Snapshot(), account, tt, role);
      var ops := OpsFor(tt.ops, role);
      if ops == [] {
        r := NoOpsForRole(role);
      } else {
        r := Scan(account, ops, ThresholdOf(db.Snapshot(), tt));
      }
    }

    method Scan(account: AccountId, ops: seq<TypeOp>, threshold: int) returns (r: CheckResult)
      ensures r == ScanOps(db.Snapshot(), account, ops, threshold)
    {
      var i := 0;
      while i < |ops|
        invariant 0 <= i <= |ops|
        invariant ScanOps(db.Snapshot(), account, ops, threshold)
            == ScanOps(db.Snapshot(), account, ops[i..], threshold)
      {
        assert ops[i..][0] == ops[i] && ops[i..][1..] == ops[i + 1..];
        if account !in db.accounts {
          return MissingAvailability(ops[i].opCode);
        }
        var percent := AvailablePercent(EffectiveRph(ops[i]), Used(db.Snapshot(), account, ops[i].opId));
        if percent < threshold as real {
          return Insufficient(ops[i].opCode, percent);
        }
        i := i + 1;
      }
      return CheckOk;
    }
  }

  class TaskAttemptsRepo {
    const db: Database

    constructor (db: Database)
      ensures this.db == db
    {
      this.db := db;
    }

    method Start(task: TaskId, account: AccountId, number: nat) returns (attempt: nat)
      modifies db`attempts
      ensures db.Snapshot() == InsertAttempt(old(db.Snapshot()), task, account, number)
      ensures attempt == old(|db.attempts|)
    {
      db.attempts := db.attempts + [Attempt(task, account, number, Running)];
      return |db.attempts| - 1;
    }

    method Close(attempt: Option<nat>, status: AttemptStatus)
      modifies db`attempts
      ensures db.Snapshot()
           == if attempt.Some? then FinishAttempt(old(db.Snapshot()), attempt.value, status) else old(db.Snapshot())
      ensures |db.attempts| == |old(db.attempts)| && forall i :: 0 <= i < |db.attempts| ==>
        var was := old(db.attempts)[i];
        db.attempts[i] == if attempt == Some(i) && was.status.Running? then was.(status := status) else was
    {
      if attempt.Some? && attempt.value < |db.attempts| && db.attempts[attempt.value].status.Running? {
        db.attempts := db.attempts[attempt.value := db.attempts[attempt.value].(status := status)];
      }
    }
  }
}
