/** Direct leases: an in-progress task created on the spot, the account with the most budget
    left, and a release and a closing statement whatever happens in between. */
module Lease {
  import opened Schema
  import opened QueueTable
  import opened AccountTable
  import opened UsageLog
  import opened Effects
  import opened Repositories
  import opened Reserving
  import opened Executing
  import opened System
  import opened Simulation

  // ----- the score -----

  /** The worst percentage over the operations that have a budget at all. */
  function WorstPercent(db: Db, account: AccountId, ops: seq<TypeOp>): Option<real> {
    if ops == [] then None
    else
      var rest := WorstPercent(db, account, ops[1..]);
      if EffectiveRph(ops[0]) <= 0 then rest
      else
        var percent := AvailablePercent(EffectiveRph(ops[0]), Used(db, account, ops[0].opId));
        if rest.None? || percent < rest.value then Some(percent) else rest
  }

  function Score(db: Db, account: AccountId, tt: TaskType): real {
    var worst := WorstPercent(db, account, OpsFor(tt.ops, Primary));
    if worst.Some? then worst.value else 100.0
  }

  /** ORDER BY score DESC, last_used_at ASC NULLS FIRST, id ASC. */
  predicate Better(db: Db, tt: TaskType, a: AccountId, b: AccountId)
    requires a in db.accounts && b in db.accounts
  {
    var x, y := Score(db, a, tt), Score(db, b, tt);
    x > y || (x == y && UsedBefore(db, a, b))
  }

  predicate Candidate(db: Db, tt: TaskType, excluded: set<AccountId>, a: AccountId) {
    Pickable(db, a) && a !in excluded && Score(db, a, tt) >= ThresholdOf(db, tt) as real
  }

  ghost predicate IsBestPick(db: Db, tt: TaskType, excluded: set<AccountId>, a: AccountId) {
    Candidate(db, tt, excluded, a) && forall b :: Candidate(db, tt, excluded, b) ==> Better(db, tt, a, b)
  }

  lemma {:induction false} ScanBoundsWorst(db: Db, account: AccountId, ops: seq<TypeOp>, threshold: int)
    requires ScanOps(db, account, ops, threshold).CheckOk?
    ensures WorstPercent(db, account, ops).Some? ==> WorstPercent(db, account, ops).value >= threshold as real
    ensures WorstPercent(db, account, ops).None? && ops != [] ==> threshold <= 0
  {
    if ops != [] {
      ScanBoundsWorst(db, account, ops[1..], threshold);
    }
  }

  /** The score filter in the query never hides an account the check would accept. */
  lemma BudgetImpliesCandidate(db: Db, tt: TaskType, excluded: set<AccountId>, a: AccountId)
    requires Pickable(db, a) && a !in excluded && HasBudget(db, a, tt)
    ensures Candidate(db, tt, excluded, a)
  {
    ScanBoundsWorst(db, a, OpsFor(tt.ops, Primary), ThresholdOf(db, tt));
  }

  lemma {:induction false} WorstReadsUsageOnly(x: Db, y: Db, account: AccountId, ops: seq<TypeOp>)
    requires x.usage == y.usage && x.now == y.now
    ensures WorstPercent(x, account, ops) == WorstPercent(y, account, ops)
  {
    if ops != [] {
      WorstReadsUsageOnly(x, y, account, ops[1..]);
    }
  }

  function PercentOf(db: Db, account: AccountId, op: TypeOp): real {
    AvailablePercent(EffectiveRph(op), Used(db, account, op.opId))
  }

  /** The score is the worst percentage of the primary operations that have a budget at all,
      and full marks if there is none. */
  lemma {:induction false} WorstIsLeast(db: Db, account: AccountId, ops: seq<TypeOp>)
    ensures forall op :: op in ops && EffectiveRph(op) > 0 ==>
      WorstPercent(db, account, ops).Some? && WorstPercent(db, account, ops).value <= PercentOf(db, account, op)
    ensures WorstPercent(db, account, ops).Some? ==>
      exists op ::
        op in ops && EffectiveRph(op) > 0 && PercentOf(db, account, op) == WorstPercent(db, account, ops).value
  {
    if ops != [] {
      WorstIsLeast(db, account, ops[1..]);
      assert forall op :: op in ops <==> op == ops[0] || op in ops[1..];
      assert ops[0] in ops;
      if WorstPercent(db, account, ops).Some? && WorstPercent(db, account, ops) != WorstPercent(db, account, ops[1..]) {
        assert PercentOf(db, account, ops[0]) == WorstPercent(db, account, ops).value;
      }
    }
  }

  ghost predicate Budgeted(tt: TaskType, op: TypeOp) {
    op in tt.ops && op.role == Primary && op.enabled && EffectiveRph(op) > 0
  }

  /** The score of an account is the least percentage left of the type's primary operations that
      have a budget, and full marks if there is none. */
  lemma ScoreIsWorst(db: Db, account: AccountId, tt: TaskType)
    ensures forall op :: Budgeted(tt, op) ==> Score(db, account, tt) <= PercentOf(db, account, op)
    ensures (exists op :: Budgeted(tt, op)) ==>
      exists op :: Budgeted(tt, op) && Score(db, account, tt) == PercentOf(db, account, op)
    ensures (forall op :: !Budgeted(tt, op)) ==> Score(db, account, tt) == 100.0
  {
    var ops := OpsFor(tt.ops, Primary);
    WorstIsLeast(db, account, ops);
    assert forall op :: Budgeted(tt, op) <==> op in ops && EffectiveRph(op) > 0;
  }

  // ----- the search, on values -----

  predicate Leasable(db: Db, tt: TaskType, excluded: set<AccountId>, a: AccountId) {
    Pickable(db, a) && a !in excluded && HasBudget(db, a, tt)
  }

  ghost predicate BestLeasable(db: Db, tt: TaskType, excluded: set<AccountId>, a: AccountId) {
    Leasable(db, tt, excluded, a) && forall b :: Leasable(db, tt, excluded, b) ==> Better(db, tt, a, b)
  }

  // Free, in service, rested, not excluded, and within budget.
  ghost predicate MayBeLeased(db: Db, tt: TaskType, excluded: set<AccountId>, a: AccountId) {
    && a in db.accounts && MayBePicked(db.accounts[a], db.now) && a !in excluded
    && WithinBudget(db, a, tt, Primary)
  }

  /** Of the accounts that may be leased the one with the most left of its scarcest operation,
      and of equals the one unused for longest. */
  ghost predicate BestToLease(db: Db, tt: TaskType, excluded: set<AccountId>, a: AccountId) {
    && MayBeLeased(db, tt, excluded, a)
    && forall b: AccountId :: MayBeLeased(db, tt, excluded, b) ==>
         && Score(db, a, tt) >= Score(db, b, tt)
         && (Score(db, a, tt) == Score(db, b, tt) ==> NextInLine(db.accounts[a], a, db.accounts[b], b))
  }

  lemma MayBeLeasedIff(db: Db, tt: TaskType, excluded: set<AccountId>, a: AccountId)
    ensures Leasable(db, tt, excluded, a) <==> MayBeLeased(db, tt, excluded, a)
  {
    PickableIff(db, a);
    CheckPassesIff(db, a, tt, Primary);
  }

  lemma BestIsBest(db: Db, tt: TaskType, excluded: set<AccountId>, a: AccountId)
    requires BestLeasable(db, tt, excluded, a)
    ensures BestToLease(db, tt, excluded, a)
  {
    MayBeLeasedIff(db, tt, excluded, a);
    forall b: AccountId | MayBeLeased(db, tt, excluded, b)
      ensures Score(db, a, tt) >= Score(db, b, tt)
      ensures Score(db, a, tt) == Score(db, b, tt) ==> NextInLine(db.accounts[a], a, db.accounts[b], b)
    {
      MayBeLeasedIff(db, tt, excluded, b);
      UsedBeforeIff(db, a, b);
    }
  }

  // Every account tried so far is out of budget.
  ghost predicate TriedInVain(db: Db, tt: TaskType, excluded: set<AccountId>, tried: set<AccountId>) {
    tried <= PickableAccounts(db) - excluded && forall r :: r in tried ==> !HasBudget(db, r, tt)
  }

  lemma CandidateOnTried(db: Db, tt: TaskType, excluded: set<AccountId>, tried: set<AccountId>, a: AccountId)
    requires TriedInVain(db, tt, excluded, tried)
    ensures Candidate(Tried(db, tried), tt, excluded + tried, a) <==> Candidate(db, tt, excluded + tried, a)
    ensures Score(Tried(db, tried), a, tt) == Score(db, a, tt)
    ensures CheckAccount(Tried(db, tried), a, tt, Primary) == CheckAccount(db, a, tt, Primary)
  {
    TriedKeepsPickable(db, tried, a);
    WorstReadsUsageOnly(db, Tried(db, tried), a, OpsFor(tt.ops, Primary));
    CheckReadsUsageOnly(db, Tried(db, tried), a, tt, Primary);
  }

  lemma BestWithBudgetIsBest(db: Db, tt: TaskType, excluded: set<AccountId>, tried: set<AccountId>, a: AccountId)
    requires TriedInVain(db, tt, excluded, tried) && IsBestPick(Tried(db, tried), tt, excluded + tried, a)
    requires HasBudget(db, a, tt)
    ensures BestLeasable(db, tt, excluded, a) && a !in tried
  {
    CandidateOnTried(db, tt, excluded, tried, a);
    forall b | Leasable(db, tt, excluded, b) ensures Better(db, tt, a, b) {
      assert b !in tried;
      BudgetImpliesCandidate(db, tt, excluded + tried, b);
      CandidateOnTried(db, tt, excluded, tried, b);
      assert Better(Tried(db, tried), tt, a, b);
    }
  }

  lemma NoCandidateNoLease(db: Db, tt: TaskType, excluded: set<AccountId>, tried: set<AccountId>)
    requires TriedInVain(db, tt, excluded, tried)
    requires forall a :: !Candidate(Tried(db, tried), tt, excluded + tried, a)
    ensures forall a :: !Leasable(db, tt, excluded, a)
  {
    forall a ensures !Leasable(db, tt, excluded, a) {
      CandidateOnTried(db, tt, excluded, tried, a);
      if Leasable(db, tt, excluded, a) {
        BudgetImpliesCandidate(db, tt, excluded + tried, a);
      }
    }
  }

  // ----- the lease itself -----

  datatype LeaseOutcome = TypeRefused | NobodyFree | ChargeFailed | RanWell | RanBadly

  // A blank text is replaced.
  function NonBlank(text: string): string {
    if text == "" then "direct_lease_failed" else text
  }

  // At most 500 characters of the error's text.
  function ErrorText(text: string): string {
    NonBlank(if |text| <= 500 then text else text[..500])
  }

  function Opened(db: Db, code: string, key: string, ttl: int): Db
    requires code in db.types
  {
    PutTask(db.(nextTask := db.nextTask + 1), db.nextTask, LeaseRow(db, code, key, ttl))
  }

  /** The row of a lease task: in progress from the start, under the name all leases share, for
      a minute at least, and with nothing done yet. */
  lemma LeaseRowIs(db: Db, code: string, key: string, ttl: int)
    requires code in db.types
    ensures var t, tt := LeaseRow(db, code, key, ttl), db.types[code];
      && t.typeCode == code && t.status.InProgress? && t.dedupKey == Some(key) && t.payload == Payload(None, 0, true)
      && t.lockedBy == Some(DirectLease) && t.lockedAt == t.startedAt == Some(db.now) && t.runAfter == db.now
      && t.lockedUntil.Some? && t.lockedUntil.value >= db.now + 60 && t.lockedUntil.value >= db.now + ttl
      && (t.lockedUntil.value == db.now + 60 || t.lockedUntil.value == db.now + ttl)
      && t.priority == tt.defaultPriority && t.maxAttempts == tt.maxAttempts
      && t.attemptCount == t.postponeCount == 0 && t.finishedAt.None? && t.lastError.None?
      && t.accountId.None? && t.sourceAccountId.None? && t.targetAccountId.None? && t.channelId.None?
  {
  }

  // The start of the text, up to 500 characters; of a blank one, a stand-in.
  predicate Says(lastError: Option<string>, text: string) {
    && lastError.Some?
    && if text == "" then lastError.value == "direct_lease_failed"
       else lastError.value <= text && (|lastError.value| == 500 || (lastError.value == text && |text| < 500))
  }

  /** The lease task when all is over: done if the holder succeeded, else failed and saying why. */
  ghost predicate LeaseClosed(r: Task, t: Task, now: Time, outcome: LeaseOutcome, failure: Option<string>,
                              noAccountText: string) {
    && OnlyClosed(r, t, now, r.attemptCount) && t.payload == r.payload
    && match outcome
       case RanWell => failure.None? && t.status.Done? && t.lastError == r.lastError
       case RanBadly => failure.Some? && t.status.Failed? && Says(t.lastError, failure.value)
       case ChargeFailed => t.status.Failed? && Says(t.lastError, "")
       case NobodyFree =>
         t.status.Failed? && t.lastError == Some(if noAccountText == "" then "direct_lease_failed" else noAccountText)
       case TypeRefused => false
  }

  /** Outcome, account, charge and closing of a lease whose task row has just been opened. */
  ghost predicate LeaseRan(opening: Db, y: Db, tt: TaskType, excluded: set<AccountId>, id: TaskId,
                           outcome: LeaseOutcome, failure: Option<string>, noAccountText: string) {
    && id in opening.tasks && id in y.tasks && y.tasks == opening.tasks[id := y.tasks[id]]
    && Reservations(y) == Reservations(opening)
    && LeaseClosed(opening.tasks[id], y.tasks[id], opening.now, outcome, failure, noAccountText)
    && (outcome.NobodyFree? ==>
          && y.usage == opening.usage && y.tasks[id].accountId == opening.tasks[id].accountId
          && forall a: AccountId :: !MayBeLeased(opening, tt, excluded, a))
    && (!outcome.NobodyFree? ==>
          && y.tasks[id].accountId.Some?
          && var a := y.tasks[id].accountId.value;
          && BestToLease(opening, tt, excluded, a) && RowsPaid(opening, y, id, tt.ops, map[Primary := a])
          && (outcome.ChargeFailed? <==> !RolesCovered(tt.ops, map[Primary := a])))
  }

  /** The holder has had the account: charged in full order, released, task closed. */
  ghost predicate HeldRan(x: Db, y: Db, tt: TaskType, id: TaskId, a: AccountId, outcome: LeaseOutcome,
                          failure: Option<string>) {
    && y == Release(x, a, id).(tasks := y.tasks, usage := y.usage)
    && RowsPaid(x, y, id, tt.ops, map[Primary := a])
    && id in x.tasks && id in y.tasks && y.tasks == x.tasks[id := y.tasks[id]] && y.tasks[id].accountId == Some(a)
    && LeaseClosed(x.tasks[id], y.tasks[id], x.now, outcome, failure, "")
    && (outcome.ChargeFailed? <==> !RolesCovered(tt.ops, map[Primary := a])) && !outcome.NobodyFree?
  }

  lemma HeldMeansRan(opening: Db, tried: set<AccountId>, held: Db, y: Db, tt: TaskType, excluded: set<AccountId>,
                     id: TaskId, a: AccountId, outcome: LeaseOutcome, failure: Option<string>, noAccountText: string)
    requires TriedInVain(opening, tt, excluded, tried) && BestLeasable(opening, tt, excluded, a)
    requires held == TakePicked(Tried(opening, tried), a, id) && HeldRan(held, y, tt, id, a, outcome, failure)
    ensures LeaseRan(opening, y, tt, excluded, id, outcome, failure, noAccountText) && y.nextTask == opening.nextTask
  {
    BestIsBest(opening, tt, excluded, a);
    TriedKeepsPickable(opening, tried, a);
    ReleaseUndoesReserve(Tried(opening, tried), a, id);
    assert RowsPaid(opening, y, id, tt.ops, map[Primary := a]);
  }

  lemma NobodyMeansRan(opening: Db, tried: set<AccountId>, tt: TaskType, excluded: set<AccountId>, id: TaskId,
                       failure: Option<string>, noAccountText: string)
    requires tried <= PickableAccounts(opening) && Fenced(opening, id, Some(DirectLease))
    requires forall a: AccountId :: !Leasable(opening, tt, excluded, a)
    ensures var y := FinishTask(Tried(opening, tried), id, Failing(Some(NonBlank(noAccountText))), Some(DirectLease));
      LeaseRan(opening, y, tt, excluded, id, NobodyFree, failure, noAccountText)
  {
    TriedKeepsPickable(opening, tried, 0);
    forall a: AccountId ensures !MayBeLeased(opening, tt, excluded, a) {
      MayBeLeasedIff(opening, tt, excluded, a);
    }
  }

  /** The statements of the holder's part, in the order they are issued. */
  function HeldFinal(x: Db, tt: TaskType, id: TaskId, a: AccountId, how: Finisher): Db {
    var charged := ChargeAll(AssignAccount(x, id, Some(a), Some(DirectLease)), tt.ops, map[Primary := a], id);
    FinishTask(Release(charged, a, id), id, how, Some(DirectLease))
  }

  lemma HeldLeads(a: Actor, x: Db, p: Phase, tt: TaskType, account: AccountId, how: Finisher, checked: bool)
    requires p.Working? && p.held == {account} && !p.closed && !p.begun && LockOf(a) == DirectLease
    requires how.Completing? || how.Failing?
    requires checked ==> p.grant == Some(Grant(account, DueOps(tt))) && NoRepeats(tt.ops)
    ensures LeadsTo(a, x, p, HeldFinal(x, tt, p.task, account, how), Idle, checked)
  {
    var named := AssignAccount(x, p.task, Some(account), Some(DirectLease));
    AssignLeads(a, x, p, true, Some(account));
    Weaken(a, x, p, named, p, checked);
    var charged := ChargeAll(named, tt.ops, map[Primary := account], p.task);
    var q := ChargesLead(a, named, p, tt.ops, map[Primary := account], checked);
    Then(a, x, p, named, p, charged, q, checked);
    var freed := Release(charged, account, p.task);
    ActLeads(a, charged, q, GiveBack(account), checked);
    Then(a, x, p, charged, q, freed, ActPhase(q, GiveBack(account)), checked);
    FinishAndLeave(a, freed, ActPhase(q, GiveBack(account)), how);
    Weaken(a, freed, ActPhase(q, GiveBack(account)), HeldFinal(x, tt, p.task, account, how), Idle, checked);
    Then(a, x, p, freed, ActPhase(q, GiveBack(account)), HeldFinal(x, tt, p.task, account, how), Idle, checked);
  }

  predicate IsLeaseRow(x: Db, id: TaskId, tt: TaskType) {
    Fenced(x, id, Some(DirectLease)) && x.tasks[id].typeCode in x.types && x.types[x.tasks[id].typeCode] == tt
  }

  lemma LeaseIsARun(a: Actor, x: Db, p: Phase, tried: set<AccountId>, tt: TaskType, account: AccountId, how: Finisher)
    requires Fresh(p) && LockOf(a) == DirectLease && IsLeaseRow(x, p.task, tt) && (how.Completing? || how.Failing?)
    requires tried <= PickableAccounts(x) && Pickable(x, account) && HasBudget(x, account, tt)
    ensures LeadsTo(a, x, p, HeldFinal(TakePicked(Tried(x, tried), account, p.task), tt, p.task, account, how), Idle,
                    Checkable(tt))
  {
    var searched := Tried(x, tried);
    var held, q := TakePicked(searched, account, p.task), p.(held := p.held + {account});
    var y := HeldFinal(held, tt, p.task, account, how);
    TriedKeepsPickable(x, tried, account);
    CheckReadsUsageOnly(x, held, account, tt, Primary);
    TriedLeads(a, x, p, tried);
    ActLeads(a, searched, p, PickAny(account), true);
    Then(a, x, p, searched, p, held, q, true);
    Weaken(a, x, p, held, q, Checkable(tt));
    if Checkable(tt) {
      var r := q.(grant := Some(Grant(account, DueOps(tt))));
      CheckLeads(a, held, q, account, tt);
      HeldLeads(a, held, r, tt, account, how, true);
      Then(a, held, q, held, r, y, Idle, true);
    } else {
      HeldLeads(a, held, q, tt, account, how, false);
    }
    Then(a, x, p, held, q, y, Idle, Checkable(tt));
  }

  lemma FruitlessLeaseIsARun(a: Actor, x: Db, p: Phase, tried: set<AccountId>, how: Finisher, checked: bool)
    requires Fresh(p) && LockOf(a) == DirectLease && tried <= PickableAccounts(x) && how.Failing?
    ensures LeadsTo(a, x, p, FinishTask(Tried(x, tried), p.task, how, Some(DirectLease)), Idle, checked)
  {
    var y := FinishTask(Tried(x, tried), p.task, how, Some(DirectLease));
    TriedLeads(a, x, p, tried);
    FinishAndLeave(a, Tried(x, tried), p, how);
    Then(a, x, p, Tried(x, tried), p, y, Idle, true);
    Weaken(a, x, p, y, Idle, checked);
  }

  lemma {:induction false} OpeningOpens(s: System, x: Db, code: string, key: string, ttl: int)
    requires At(s, LeaseActor(x.nextTask), x, Idle) && TypeEnabled(x, code)
    requires forall id: TaskId :: !HoldsKey(x, id, key)
    ensures Opens(s, LeaseActor(x.nextTask), OpenLease(code, key, ttl), Opened(x, code, key, ttl), x.nextTask)
  {
  }

  /** Every run of the lease executor from the opened row ends as the lease did. */
  ghost predicate LeaseRuns(x: Db, y: Db, id: TaskId, tt: TaskType) {
    forall a: Actor, p: Phase ::
      Fresh(p) && p.task == id && LockOf(a) == DirectLease ==> LeadsTo(a, x, p, y, Idle, Checkable(tt))
  }

  lemma OpenedLeaseIsARun(x: Db, code: string, key: string, ttl: int, y: Db)
    requires TypeEnabled(x, code) && forall id: TaskId :: !HoldsKey(x, id, key)
    requires LeaseRuns(Opened(x, code, key, ttl), y, x.nextTask, x.types[code])
    ensures LeadsTo(LeaseActor(x.nextTask), x, Idle, y, Idle, Checkable(x.types[code]))
  {
    var a, opening := LeaseActor(x.nextTask), Opened(x, code, key, ttl);
    forall s: System | At(s, a, x, Idle) ensures Opens(s, a, OpenLease(code, key, ttl), opening, x.nextTask) {
      OpeningOpens(s, x, code, key, ttl);
    }
    OpeningLeads(a, x, OpenLease(code, key, ttl), opening, x.nextTask, y, Checkable(x.types[code]));
  }

  class AccountLeases {
    const db: Database
    const queue: TaskQueueRepo
    const accounts: AccountsRepo
    const usage: ResourceUsageRepo
    const checker: ResourceChecker
    // The message of a lease that finds no account.
    const noAccountText: string

    constructor (db: Database, noAccountText: string)
      ensures this.db == db && this.noAccountText == noAccountText && Wired()
    {
      this.db, this.noAccountText := db, noAccountText;
      queue := new TaskQueueRepo(db);
      accounts := new AccountsRepo(db);
      usage := new ResourceUsageRepo(db);
      checker := new ResourceChecker(db);
    }

    ghost predicate Wired() {
      queue.db == db && accounts.db == db && usage.db == db && checker.db == db
    }

    /** Reserves the candidate with the best score; none if there is no candidate. */
    method PickBestAndReserve(id: TaskId, tt: TaskType, excluded: set<AccountId>) returns (picked: Option<AccountId>)
      requires Wired()
      modifies db`accounts
      ensures picked.Some? ==> IsBestPick(old(db.Snapshot()), tt, excluded, picked.value)
                               && db.Snapshot() == TakePicked(old(db.Snapshot()), picked.value, id)
      ensures picked.None? ==> db.Snapshot() == old(db.Snapshot())
                               && forall a :: !Candidate(old(db.Snapshot()), tt, excluded, a)
    {
      var rest := db.accounts.Keys;
      picked := None;
      while rest != {}
        invariant rest <= db.accounts.Keys
        invariant picked.Some? ==> Candidate(db.Snapshot(), tt, excluded, picked.value)
        invariant forall a :: Candidate(db.Snapshot(), tt, excluded, a) && a !in rest ==>
          picked.Some? && Better(db.Snapshot(), tt, picked.value, a)
      {
        var a :| a in rest;
        rest := rest - {a};
        if Candidate(db.Snapshot(), tt, excluded, a) && (picked.None? || Better(db.Snapshot(), tt, a, picked.value)) {
          picked := Some(a);
        }
      }
      if picked.Some? {
        var row := db.accounts[picked.value];
        db.accounts := db.accounts[picked.value := row.(currentTask := Some(id), lastUsedAt := Some(db.now),
                                                        status := Usable)];
      }
    }

    /** The best account with budget, reserved; the ones tried on the way are free again. */
    method AcquireBest(id: TaskId, tt: TaskType, excluded: set<AccountId>)
      returns (chosen: Option<AccountId>, ghost tried: set<AccountId>)
      requires Wired()
      modifies db`accounts
      ensures TriedInVain(old(db.Snapshot()), tt, excluded, tried)
      ensures chosen.Some? ==> BestLeasable(old(db.Snapshot()), tt, excluded, chosen.value)
                               && db.Snapshot() == TakePicked(Tried(old(db.Snapshot()), tried), chosen.value, id)
      ensures chosen.None? ==> (forall a :: !Leasable(old(db.Snapshot()), tt, excluded, a))
                               && db.Snapshot() == Tried(old(db.Snapshot()), tried)
    {
      ghost var before := db.Snapshot();
      var rejected := excluded;
      tried := {};
      assert Tried(before, {}).accounts == before.accounts;
      while true
        invariant rejected == excluded + tried && db.Snapshot() == Tried(before, tried)
        invariant TriedInVain(before, tt, excluded, tried)
        decreases before.accounts.Keys - tried
      {
        var picked := PickBestAndReserve(id, tt, rejected);
        if picked.None? {
          NoCandidateNoLease(before, tt, excluded, tried);
          return None, tried;
        }
        var a := picked.value;
        CandidateOnTried(before, tt, excluded, tried, a);
        CheckReadsUsageOnly(before, db.Snapshot(), a, tt, Primary);
        var check := checker.Check(a, tt, Primary);
        if check.CheckOk? {
          BestWithBudgetIsBest(before, tt, excluded, tried, a);
          return Some(a), tried;
        }
        accounts.ReleaseFor(a, id);
        TryAndGiveBack(before, tried, a, id);
        rejected, tried := rejected + {a}, tried + {a};
      }
    }

    /** Charges the account and runs the holder's work (`failure` is the text of what it
        raises); then, whatever happened, releases the account and closes the task. */
    method RunHeld(id: TaskId, tt: TaskType, a: AccountId, failure: Option<string>)
      returns (outcome: LeaseOutcome, ghost how: Finisher)
      requires Wired() && Fenced(db.Snapshot(), id, Some(DirectLease))
      modifies db`tasks, db`accounts, db`usage
      ensures HeldRan(old(db.Snapshot()), db.Snapshot(), tt, id, a, outcome, failure)
      ensures db.Snapshot() == HeldFinal(old(db.Snapshot()), tt, id, a, how) && (how.Completing? || how.Failing?)
    {
      ghost var before := db.Snapshot();
      queue.Assign(id, Some(a), Some(DirectLease));
      ghost var assigned' := db.Snapshot();
      var ok := usage.RecordForTask(tt.ops, map[Primary := a], id);
      ChargingOnlyAddsUsage(assigned', tt.ops, map[Primary := a], id);
      accounts.ReleaseFor(a, id);
      var text := if ok && failure.Some? then failure.value else "";
      var ending := if ok && failure.None? then Completing else Failing(Some(ErrorText(text)));
      var _ := queue.Finish(id, ending, Some(DirectLease));
      how := ending;
      outcome := if !ok then ChargeFailed else if failure.None? then RanWell else RanBadly;
    }

    method RunOpened(id: TaskId, tt: TaskType, excluded: set<AccountId>, failure: Option<string>)
      returns (outcome: LeaseOutcome)
      requires Wired() && IsLeaseRow(db.Snapshot(), id, tt)
      modifies db`tasks, db`accounts, db`usage
      ensures LeaseRan(old(db.Snapshot()), db.Snapshot(), tt, excluded, id, outcome, failure, noAccountText)
      ensures !outcome.TypeRefused?
      ensures LeaseRuns(old(db.Snapshot()), db.Snapshot(), id, tt)
      ensures db.nextTask == old(db.nextTask)
    {
      ghost var opening := db.Snapshot();
      var chosen, tried := AcquireBest(id, tt, excluded);
      if chosen.None? {
        NobodyMeansRan(opening, tried, tt, excluded, id, failure, noAccountText);
        var ending := Failing(Some(NonBlank(noAccountText)));
        var _ := queue.Finish(id, ending, Some(DirectLease));
        forall a: Actor, p: Phase | Fresh(p) && p.task == id && LockOf(a) == DirectLease
          ensures LeadsTo(a, opening, p, db.Snapshot(), Idle, Checkable(tt))
        {
          FruitlessLeaseIsARun(a, opening, p, tried, ending, Checkable(tt));
        }
        return NobodyFree;
      }
      ghost var held := db.Snapshot();
      ghost var how;
      outcome, how := RunHeld(id, tt, chosen.value, failure);
      HeldMeansRan(opening, tried, held, db.Snapshot(), tt, excluded, id, chosen.value, outcome, failure,
                   noAccountText);
      forall a: Actor, p: Phase | Fresh(p) && p.task == id && LockOf(a) == DirectLease
        ensures LeadsTo(a, opening, p, db.Snapshot(), Idle, Checkable(tt))
      {
        LeaseIsARun(a, opening, p, tried, tt, chosen.value, how);
      }
    }

    /** A direct lease from start to finish. Whatever the holder does, the lease task is
        closed (done exactly when the holder succeeded), no reservation is left, and the
        account was the best with budget, charged for every enabled operation. */
    method Lease(code: string, key: string, ttl: int, excluded: set<AccountId>, failure: Option<string>)
      returns (outcome: LeaseOutcome)
      requires Wired() && FreshIds(db.Snapshot())
      requires forall id: TaskId :: !HoldsKey(db.Snapshot(), id, key)
      modifies db`tasks, db`nextTask, db`accounts, db`usage
      ensures var before, after := old(db.Snapshot()), db.Snapshot();
        && (outcome.TypeRefused? <==> !TypeEnabled(before, code))
        && (outcome.TypeRefused? ==> after == before)
        && (!outcome.TypeRefused? ==>
              LeaseRan(Opened(before, code, key, ttl), after, before.types[code], excluded, before.nextTask, outcome,
                       failure, noAccountText)
              && after.nextTask == before.nextTask + 1
              && LeadsTo(LeaseActor(before.nextTask), before, Idle, after, Idle, Checkable(before.types[code])))
    {
      ghost var before := db.Snapshot();
      if code !in db.types || !db.types[code].enabled {
        return TypeRefused;
      }
      var tt, id := db.types[code], db.nextTask;
      db.tasks, db.nextTask := db.tasks[id := LeaseRow(db.Snapshot(), code, key, ttl)], id + 1;
      outcome := RunOpened(id, tt, excluded, failure);
      OpenedLeaseIsARun(before, code, key, ttl, db.Snapshot());
    }
  }
}
