/** The running system: the shared tables, every executor's local state, and the steps any
    of them may take. Each statement or transaction is one step; steps of different
    executors interleave in any order.

    A step whose local guard does not hold leaves the system unchanged, so every sequence of
    steps is a run and the theorems of the other modules range over all of them. */
module System {
  import opened Schema
  import opened QueueTable
  import opened AccountTable
  import opened UsageLog

  /** Who executes tasks: worker processes, which are sequential, and direct leases, one
      executor per lease task, all under the same lock name. */
  datatype Actor = WorkerActor(id: nat) | LeaseActor(task: TaskId)

  function LockOf(a: Actor): Locker {
    match a
    case WorkerActor(id) => Worker(id)
    case LeaseActor(_) => DirectLease
  }

  // A passed resource check: the operations that may still be charged to the account.
  datatype Grant = Grant(account: AccountId, due: set<TypeOp>)

  /** An executor is idle or inside one dispatch. `held` are the accounts it reserved and has
      not released; `closed` says it has issued its finalising statement and is on its way
      out; `claim` numbers the claims of the task. */
  datatype Phase =
    | Idle
    | Working(task: TaskId, claim: nat, held: set<AccountId>, closed: bool, begun: bool, grant: Option<Grant>)

  datatype Cause = ByActor(actor: Actor, outcome: TaskStatus) | ByWatchdog(result: TaskStatus)
  datatype Closing = Closing(claim: nat, cause: Cause)

  /** History of one task: claims so far, whether the latest claim counted an attempt, how
      many claims went back to the queue by a reschedule that counted none, and the closings. */
  datatype Ledger = Ledger(claims: nat, counted: bool, uncounted: nat, closings: seq<Closing>)

  // `pending` are enqueue calls between their history check and their insert.
  datatype System = System(
    db: Db,
    phases: map<Actor, Phase>,
    ledgers: map<TaskId, Ledger>,
    pending: map<nat, NewTask>)

  function PhaseOf(s: System, a: Actor): Phase {
    if a in s.phases then s.phases[a] else Idle
  }

  function LedgerOf(s: System, id: TaskId): Ledger {
    if id in s.ledgers then s.ledgers[id] else Ledger(0, false, 0, [])
  }

  /** The executor's claim is in force: the row says in progress under its lock name. */
  predicate Owns(s: System, a: Actor) {
    PhaseOf(s, a).Working? && Fenced(s.db, PhaseOf(s, a).task, Some(LockOf(a)))
  }

  /** What an executor does. */
  datatype Act =
    | ClaimTask(id: TaskId, ttl: int)
    | OpenLease(code: string, key: string, ttl: int)
    | ReserveOne(account: AccountId)
    | ReserveTwo(source: AccountId, target: AccountId)
    | PickAny(account: AccountId)
    | GiveBack(account: AccountId)
    | CheckBudget(account: AccountId)
    | ChargeOp(op: TypeOp)
    | StopCharging
    | ChargeUnchecked(account: AccountId, op: TypeOp)
    | RecordAttempt(account: AccountId, number: nat)
    | CloseAttempt(attempt: nat, result: AttemptStatus)
    | Assign(chosen: Option<AccountId>)
    | Begin
    | CommitStep(code: string)
    | Finish(how: Finisher)
    | Leave

  /** What happens around the executors. */
  datatype Event =
    | Tick(seconds: nat)
    | EnqueueCheck(call: nat, item: NewTask, skipKnownFatal: bool)
    | EnqueueInsert(call: nat)
    | SweepOrphans
    | WatchdogMark(batch: set<TaskId>, policy: AutoRetry)
    | CooldownAccount(account: AccountId, until: Time)
    | ClearCooldowns
    | BanAccount(account: AccountId)
    | BreakAccount(account: AccountId)
    | ReviveAccount(account: AccountId)
    | SyncAccount(account: AccountId, status: AccountStatus, enabled: bool)

  datatype Step = By(actor: Actor, act: Act) | Around(event: Event)

  function SetPhase(s: System, a: Actor, p: Phase): System {
    s.(phases := s.phases[a := p])
  }

  function OpenClaim(s: System, a: Actor, id: TaskId, db: Db): System {
    var claims := LedgerOf(s, id).claims + 1;
    s.(db := db,
       phases := s.phases[a := Working(id, claims, {}, false, false, None)],
       ledgers := s.ledgers[id := LedgerOf(s, id).(claims := claims, counted := false)])
  }

  function LeaseRow(db: Db, code: string, key: string, ttl: int): Task
    requires code in db.types
  {
    var tt := db.types[code];
    Task(code, InProgress, tt.defaultPriority, None, None, None, None, Payload(None, 0, true), Some(key), db.now,
         Some(DirectLease), Some(db.now), Some(db.now + if ttl < 60 then 60 else ttl),
         0, 0, tt.maxAttempts, None, Some(db.now), None)
  }

  function CloseLedger(l: Ledger, claim: nat, cause: Cause, free: bool): Ledger {
    l.(closings := l.closings + [Closing(claim, cause)],
       uncounted := l.uncounted + if free && !l.counted then 1 else 0)
  }

  // The executor issues a finalising statement and turns to its `finally` block.
  function Finalise(s: System, a: Actor, how: Finisher): System
    requires PhaseOf(s, a).Working?
  {
    var p := PhaseOf(s, a);
    var left := s.(phases := s.phases[a := p.(closed := true)]);
    if CanFinish(s.db, p.task, how, Some(LockOf(a))) then
      var db := FinishTask(s.db, p.task, how, Some(LockOf(a)));
      var outcome := db.tasks[p.task].status;
      left.(db := db,
            ledgers := s.ledgers[p.task := CloseLedger(LedgerOf(s, p.task), p.claim, ByActor(a, outcome),
                                                       outcome.Retry?)])
    else left
  }

  function WatchdogLedgers(s: System, batch: set<TaskId>, policy: AutoRetry): map<TaskId, Ledger> {
    map id | id in s.ledgers.Keys + batch ::
      if id in batch && id in s.db.tasks then
        CloseLedger(LedgerOf(s, id), LedgerOf(s, id).claims, ByWatchdog(WatchdogOutcome(s.db.tasks[id], policy)), false)
      else LedgerOf(s, id)
  }

  function Hold(s: System, a: Actor, accounts: set<AccountId>, db: Db): System
    requires PhaseOf(s, a).Working?
  {
    s.(db := db, phases := s.phases[a := PhaseOf(s, a).(held := PhaseOf(s, a).held + accounts)])
  }

  predicate Busy(s: System, a: Actor) {
    PhaseOf(s, a).Working? && !PhaseOf(s, a).closed
  }

  predicate TaskTypeKnown(s: System, a: Actor) {
    PhaseOf(s, a).Working? && PhaseOf(s, a).task in s.db.tasks
    && s.db.tasks[PhaseOf(s, a).task].typeCode in s.db.types
  }

  function TypeOfTask(s: System, a: Actor): TaskType
    requires TaskTypeKnown(s, a)
  {
    s.db.types[s.db.tasks[PhaseOf(s, a).task].typeCode]
  }

  // Giving an account back ends the check that was passed on it.
  function GrantWithout(p: Phase, account: AccountId): Option<Grant>
    requires p.Working?
  {
    if p.grant.Some? && p.grant.value.account == account then None else p.grant
  }

  ghost function ApplyAct(s: System, a: Actor, act: Act): System {
    var p := PhaseOf(s, a);
    match act
    case ClaimTask(id, ttl) =>
      if a.WorkerActor? && p.Idle? && Ready(s.db, id, None) then
        OpenClaim(s, a, id, Claim(s.db, id, LockOf(a), ttl))
      else s
    case OpenLease(code, key, ttl) =>
      var id := s.db.nextTask;
      if a == LeaseActor(id) && p.Idle? && TypeEnabled(s.db, code)
         && (forall other: TaskId :: !HoldsKey(s.db, other, key)) then
        OpenClaim(s, a, id, PutTask(s.db.(nextTask := id + 1), id, LeaseRow(s.db, code, key, ttl)))
      else s
    case ReserveOne(account) =>
      if Busy(s, a) && CanReserve(s.db, account) then Hold(s, a, {account}, Reserve(s.db, account, p.task)) else s
    case ReserveTwo(source, target) =>
      if Busy(s, a) && CanReservePair(s.db, source, target) then
        Hold(s, a, {source, target}, ReservePair(s.db, source, target, p.task))
      else s
    case PickAny(account) =>
      if Busy(s, a) && Pickable(s.db, account) then Hold(s, a, {account}, TakePicked(s.db, account, p.task)) else s
    case GiveBack(account) =>
      if p.Working? && account in p.held then
        s.(db := Release(s.db, account, p.task),
           phases := s.phases[a := p.(held := p.held - {account},
                                      grant := GrantWithout(p, account))])
      else s
    case CheckBudget(account) =>
      if Busy(s, a) && account in p.held && p.grant.None? && TaskTypeKnown(s, a)
         && !TypeOfTask(s, a).usesTwoAccounts && CheckAccount(s.db, account, TypeOfTask(s, a), Primary).CheckOk? then
        var due := set op | op in OpsFor(TypeOfTask(s, a).ops, Primary);
        SetPhase(s, a, p.(grant := Some(Grant(account, due))))
      else s
    case ChargeOp(op) =>
      if Busy(s, a) && p.grant.Some? && op in p.grant.value.due then
        var g := p.grant.value;
        s.(db := Charge(s.db, g.account, op, p.task),
           phases := s.phases[a := p.(grant := Some(g.(due := g.due - {op})))])
      else s
    // The adapter has returned or raised: nothing more is charged in this dispatch.
    case StopCharging =>
      if p.Working? && p.grant.Some? then SetPhase(s, a, p.(grant := Some(p.grant.value.(due := {})))) else s
    // A charge no check under this reservation covers: for a pair, whose check comes before
    // its reservation, or for a row the check does not look at.
    case ChargeUnchecked(account, op) =>
      if Busy(s, a) && account in p.held then s.(db := Charge(s.db, account, op, p.task)) else s
    case RecordAttempt(account, number) =>
      if Busy(s, a) then s.(db := InsertAttempt(s.db, p.task, account, number)) else s
    case CloseAttempt(attempt, result) =>
      if Busy(s, a) then s.(db := FinishAttempt(s.db, attempt, result)) else s
    case Assign(chosen) =>
      if Busy(s, a) then s.(db := AssignAccount(s.db, p.task, chosen, Some(LockOf(a)))) else s
    case Begin =>
      if Busy(s, a) && !p.begun && Owns(s, a) then
        s.(db := BeginAttempt(s.db, p.task, Some(LockOf(a))),
           phases := s.phases[a := p.(begun := true)],
           ledgers := s.ledgers[p.task := LedgerOf(s, p.task).(counted := true)])
      else s
    case CommitStep(code) =>
      if Busy(s, a) then s.(db := SetLastCompletedStep(s.db, p.task, code, Some(LockOf(a)))) else s
    case Finish(how) => if Busy(s, a) then Finalise(s, a, how) else s
    // A dispatch that returned, or a process that died: the accounts it held are forgotten.
    case Leave => SetPhase(s, a, Idle)
  }

  ghost function ApplyEvent(s: System, event: Event): System {
    match event
    case Tick(seconds) => s.(db := s.db.(now := s.db.now + seconds))
    case EnqueueCheck(call, item, skip) =>
      if call in s.pending || !TypeEnabled(s.db, item.typeCode) || (skip && HasFatalHistory(s.db, item.dedupKey)) then s
      else s.(pending := s.pending[call := item])
    case EnqueueInsert(call) =>
      if call in s.pending && s.pending[call].typeCode in s.db.types then
        s.(db := Insert(s.db, s.pending[call]), pending := s.pending - {call})
      else s
    case SweepOrphans => s.(db := ReleaseOrphans(s.db))
    case WatchdogMark(batch, policy) =>
      if forall id :: id in batch ==> TimedOutTask(s.db, id) then
        s.(db := MarkTimedOut(s.db, batch, policy), ledgers := WatchdogLedgers(s, batch, policy))
      else s
    case CooldownAccount(account, until) => s.(db := SetCooldown(s.db, account, until))
    case ClearCooldowns => s.(db := ClearExpiredCooldowns(s.db))
    case BanAccount(account) => s.(db := SetBanned(s.db, account))
    case BreakAccount(account) => s.(db := SetAccountError(s.db, account))
    case ReviveAccount(account) => s.(db := Reactivate(s.db, account))
    case SyncAccount(account, status, enabled) => s.(db := SyncRow(s.db, account, status, enabled))
  }

  ghost function Apply(s: System, step: Step): System {
    match step
    case By(a, act) => ApplyAct(s, a, act)
    case Around(event) => ApplyEvent(s, event)
  }

  ghost function Exec(s: System, steps: seq<Step>): System
    decreases |steps|
  {
    if steps == [] then s else Exec(Apply(s, steps[0]), steps[1..])
  }

  lemma {:induction false} ExecConcat(s: System, first: seq<Step>, rest: seq<Step>)
    ensures Exec(s, first + rest) == Exec(Exec(s, first), rest)
    decreases |first|
  {
    if first == [] {
      assert first + rest == rest;
    } else {
      assert (first + rest)[1..] == first[1..] + rest;
      ExecConcat(Apply(s, first[0]), first[1..], rest);
    }
  }

  // ----- what a step leaves alone -----

  lemma {:induction false} OthersKeepPhase(s: System, a: Actor, b: Actor, act: Act)
    requires a != b
    ensures PhaseOf(ApplyAct(s, b, act), a) == PhaseOf(s, a)
  {
  }

  lemma {:induction false} EventsDoNotMove(s: System, event: Event, a: Actor)
    ensures PhaseOf(ApplyEvent(s, event), a) == PhaseOf(s, a)
  {
  }

  lemma {:induction false} ActsLeaveConfiguration(s: System, a: Actor, act: Act)
    ensures ApplyAct(s, a, act).db.types == s.db.types
    ensures ApplyAct(s, a, act).db.thresholdOverride == s.db.thresholdOverride
  {
  }

  lemma {:induction false} EventsLeaveConfiguration(s: System, event: Event)
    ensures ApplyEvent(s, event).db.types == s.db.types
    ensures ApplyEvent(s, event).db.thresholdOverride == s.db.thresholdOverride
  {
  }

  // A row without the two columns that naming an account and committing a step write.
  function Standing(t: Task): Task {
    t.(accountId := None, payload := t.payload.(lastCompletedStep := None))
  }

  predicate SameStanding(s: System, t: System, id: TaskId) {
    && (id in s.db.tasks <==> id in t.db.tasks)
    && (id in s.db.tasks ==> Standing(t.db.tasks[id]) == Standing(s.db.tasks[id]))
    && LedgerOf(t, id) == LedgerOf(s, id)
  }

  // The acts that open a claim, count its attempt or close it.
  predicate MovesTask(act: Act) {
    act.ClaimTask? || act.OpenLease? || act.Begin? || act.Finish?
  }

  // The task such an act is about.
  function Subject(s: System, a: Actor, act: Act): TaskId {
    match act
    case ClaimTask(id, _) => id
    case OpenLease(_, _, _) => s.db.nextTask
    case _ => if PhaseOf(s, a).Working? then PhaseOf(s, a).task else 0
  }

  /** A task keeps its standing at every act but those, and at those that are about another. */
  lemma {:induction false} OtherTasksStand(s: System, a: Actor, act: Act, id: TaskId)
    requires MovesTask(act) ==> id != Subject(s, a, act)
    ensures SameStanding(s, ApplyAct(s, a, act), id)
  {
    if MovesTask(act) { MovesOwnTaskOnly(s, a, act, id); } else { QuietActsStand(s, a, act, id); }
  }

  lemma {:induction false} MovesOwnTaskOnly(s: System, a: Actor, act: Act, id: TaskId)
    requires MovesTask(act) && id != Subject(s, a, act)
    ensures SameStanding(s, ApplyAct(s, a, act), id)
  {
  }

  lemma {:induction false} QuietActsStand(s: System, a: Actor, act: Act, id: TaskId)
    requires !MovesTask(act)
    ensures SameStanding(s, ApplyAct(s, a, act), id)
  {
    match act
    case Assign(chosen) => NamingStands(s, a, chosen, id);
    case CommitStep(code) => CommittingStands(s, a, code, id);
    case _ => WritesNoTask(s, a, act);
  }

  lemma {:induction false} NamingStands(s: System, a: Actor, chosen: Option<AccountId>, id: TaskId)
    ensures SameStanding(s, ApplyAct(s, a, Assign(chosen)), id)
  {
  }

  lemma {:induction false} CommittingStands(s: System, a: Actor, code: string, id: TaskId)
    ensures SameStanding(s, ApplyAct(s, a, CommitStep(code)), id)
  {
  }

  lemma {:induction false} WritesNoTask(s: System, a: Actor, act: Act)
    requires !MovesTask(act) && !act.Assign? && !act.CommitStep?
    ensures ApplyAct(s, a, act).db.tasks == s.db.tasks && ApplyAct(s, a, act).ledgers == s.ledgers
  {
  }

  // An executor inside a dispatch keeps its task and its claim until it leaves.
  lemma {:induction false} QuietActKeepsClaim(s: System, a: Actor, act: Act)
    requires PhaseOf(s, a).Working? && !MovesTask(act)
    ensures var p, q := PhaseOf(s, a), PhaseOf(ApplyAct(s, a, act), a);
      q.Working? ==> q.task == p.task && q.claim == p.claim && q.begun == p.begun && q.closed == p.closed
  {
  }

  // The system with these tables and nobody at work.
  function AtRest(db: Db): System {
    System(db, map[], map[], map[])
  }

  // A lease executor works on its own task only, and that task's row was created for it.
  ghost predicate LeasesOwnTheirTask(s: System) {
    forall t: TaskId :: PhaseOf(s, LeaseActor(t)).Working? ==> PhaseOf(s, LeaseActor(t)).task == t
  }

  ghost predicate Start(s: System) {
    && FreshIds(s.db)
    && s.phases == map[] && s.ledgers == map[] && s.pending == map[]
    && s.db.tasks == map[] && s.db.usage == []
    && forall a :: a in s.db.accounts ==> s.db.accounts[a].currentTask.None?
  }

  lemma {:induction false} LeasesKeepTheirTask(s: System, step: Step)
    requires LeasesOwnTheirTask(s)
    ensures LeasesOwnTheirTask(Apply(s, step))
  {
    if step.By? {
      forall t: TaskId | PhaseOf(Apply(s, step), LeaseActor(t)).Working?
        ensures PhaseOf(Apply(s, step), LeaseActor(t)).task == t
      {
        ActKeepsLeaseTask(s, step.actor, step.act, t);
      }
    }
  }

  lemma {:induction false} ActKeepsLeaseTask(s: System, a: Actor, act: Act, t: TaskId)
    requires PhaseOf(s, LeaseActor(t)).Working? ==> PhaseOf(s, LeaseActor(t)).task == t
    ensures var p := PhaseOf(ApplyAct(s, a, act), LeaseActor(t)); p.Working? ==> p.task == t
  {
  }

  lemma {:induction false} IdsStayFresh(s: System, step: Step)
    requires FreshIds(s.db)
    ensures FreshIds(Apply(s, step).db)
  {
    match step
    case By(a, act) => ActKeepsIdsFresh(s, a, act);
    case Around(event) => EventKeepsIdsFresh(s, event);
  }

  lemma {:induction false} ActKeepsIdsFresh(s: System, a: Actor, act: Act)
    requires FreshIds(s.db)
    ensures FreshIds(ApplyAct(s, a, act).db)
  {
  }

  lemma {:induction false} EventKeepsIdsFresh(s: System, event: Event)
    requires FreshIds(s.db)
    ensures FreshIds(ApplyEvent(s, event).db)
  {
  }

  lemma {:induction false} OwnerIsUnique(s: System, a: Actor, b: Actor)
    requires LeasesOwnTheirTask(s)
    requires Owns(s, a) && Owns(s, b) && PhaseOf(s, a).task == PhaseOf(s, b).task
    ensures a == b
  {
  }
}
