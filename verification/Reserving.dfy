/** How a dispatch gets its account: a fixed one, a pair, or the first acceptable one in
    least-recently-used order. A refusal postpones the task and leaves no reservation. */
module Reserving {
  import opened Schema
  import opened QueueTable
  import opened AccountTable
  import opened UsageLog
  import opened Pacing

  /** The claimed row as the worker read it. */
  datatype ClaimedTask = ClaimedTask(
    id: TaskId,
    typeCode: string,
    accountId: Option<AccountId>,
    sourceAccountId: Option<AccountId>,
    targetAccountId: Option<AccountId>,
    lastStep: Option<string>,
    lock: Locker)

  predicate IsAutoPickType(code: string) {
    code in {"parser_add_channel", "telegram_discover", "telegram_discover_leads", "discover_groups",
             "collect_extra_data", "update_channel"}
  }

  predicate IsPacedType(code: string) {
    code == "parser_add_channel"
  }

  // The account of a paced type is its only owner; being busy does not make it unfit.
  predicate UnassignsWhenRefused(tt: TaskType) {
    IsAutoPickType(tt.code) && !tt.usesTwoAccounts && !IsPacedType(tt.code)
  }

  function Digits(n: nat): string {
    if n < 10 then ["0123456789"[n]] else Digits(n / 10) + ["0123456789"[n % 10]]
  }

  function RoleName(role: Role): string {
    match role
    case Primary => "primary"
    case Source => "source"
    case Target => "target"
  }

  function ResourceReason(check: CheckResult, account: AccountId): string {
    match check
    case NoOpsForRole(role) => "no_ops_for_role:" + RoleName(role)
    case MissingAvailability(op) => "insufficient_resource:" + Digits(account) + ":" + op
    case Insufficient(op, _) => "insufficient_resource:" + Digits(account) + ":" + op
    case CheckOk => "insufficient_resource"
  }

  function PostponeTask(db: Db, task: ClaimedTask, delay: int, reason: string): Db {
    FinishTask(db, task.id, Postponing(delay, Some(reason)), Some(task.lock))
  }

  function Unassign(db: Db, task: ClaimedTask, tt: TaskType): Db {
    if UnassignsWhenRefused(tt) then AssignAccount(db, task.id, None, Some(task.lock)) else db
  }

  // ----- what the check reads -----

  lemma {:induction false} ScanReadsUsageOnly(x: Db, y: Db, account: AccountId, ops: seq<TypeOp>, threshold: int)
    requires x.usage == y.usage && x.now == y.now && (account in x.accounts <==> account in y.accounts)
    ensures ScanOps(x, account, ops, threshold) == ScanOps(y, account, ops, threshold)
  {
    if ops != [] {
      ScanReadsUsageOnly(x, y, account, ops[1..], threshold);
    }
  }

  lemma CheckReadsUsageOnly(x: Db, y: Db, account: AccountId, tt: TaskType, role: Role)
    requires x.usage == y.usage && x.now == y.now && x.thresholdOverride == y.thresholdOverride
    requires account in x.accounts <==> account in y.accounts
    ensures CheckAccount(x, account, tt, role) == CheckAccount(y, account, tt, role)
  {
    ScanReadsUsageOnly(x, y, account, OpsFor(tt.ops, role), ThresholdOf(x, tt));
  }

  predicate HasBudget(db: Db, account: AccountId, tt: TaskType) {
    CheckAccount(db, account, tt, Primary).CheckOk?
  }

  /** The pacer as one dispatch sees it: off, or a table of slots and the clock reading. */
  datatype Pace = Pace(interval: real, slots: map<AccountId, real>, clock: real)

  predicate Paces(pace: Pace, tt: TaskType) {
    pace.interval > 0.0 && IsPacedType(tt.code)
  }

  predicate SlotFree(pace: Pace, tt: TaskType, account: AccountId) {
    Paces(pace, tt) ==> SlotOpen(pace.interval, pace.slots, account, pace.clock)
  }

  function WaitFor(pace: Pace, account: AccountId): real {
    Wait(pace.interval, pace.slots, account, pace.clock)
  }

  function SlotsTaken(pace: Pace, tt: TaskType, account: AccountId): map<AccountId, real> {
    if Paces(pace, tt) then Acquire(pace.interval, pace.slots, account, pace.clock) else pace.slots
  }

  // ----- the auto-pick loop, on values -----

  predicate Acceptable(db: Db, tt: TaskType, pace: Pace, a: AccountId) {
    Pickable(db, a) && HasBudget(db, a, tt) && SlotFree(pace, tt, a)
  }

  ghost predicate FirstAcceptable(db: Db, tt: TaskType, pace: Pace, a: AccountId) {
    Acceptable(db, tt, pace, a) && forall b: AccountId :: Acceptable(db, tt, pace, b) ==> UsedBefore(db, a, b)
  }

  function PickableAccounts(db: Db): set<AccountId> {
    set a | a in db.accounts && Pickable(db, a)
  }

  function AheadOf(db: Db, a: AccountId): set<AccountId>
    requires a in db.accounts
  {
    set b | b in PickableAccounts(db) && b != a && UsedBefore(db, b, a)
  }

  /** What trying an account and giving it back leaves: a fresh last use, a usable status. */
  function Tried(db: Db, tried: set<AccountId>): Db {
    db.(accounts := map a | a in db.accounts ::
          if a in tried then db.accounts[a].(lastUsedAt := Some(db.now), status := Usable) else db.accounts[a])
  }

  lemma TriedKeepsPickable(db: Db, tried: set<AccountId>, a: AccountId)
    requires tried <= PickableAccounts(db)
    ensures Pickable(Tried(db, tried), a) <==> Pickable(db, a)
    ensures Reservations(Tried(db, tried)) == Reservations(db)
  {
  }

  lemma NextPick(db: Db, tried: set<AccountId>, a: AccountId)
    requires tried <= PickableAccounts(db) && IsLruPick(Tried(db, tried), tried, a)
    ensures IsLruPick(db, tried, a)
  {
    TriedKeepsPickable(db, tried, a);
    forall b | Pickable(db, b) && b !in tried ensures UsedBefore(db, a, b) {
      TriedKeepsPickable(db, tried, b);
      assert UsedBefore(Tried(db, tried), a, b);
    }
  }

  lemma TryAndGiveBack(db: Db, tried: set<AccountId>, a: AccountId, task: TaskId)
    requires Pickable(db, a) && a !in tried
    ensures Release(TakePicked(Tried(db, tried), a, task), a, task) == Tried(db, tried + {a})
  {
    assert Release(TakePicked(Tried(db, tried), a, task), a, task).accounts == Tried(db, tried + {a}).accounts;
  }

  /** The loop has gone through the accounts of `tried`, all unacceptable, in order. */
  ghost predicate Scanned(db: Db, tt: TaskType, pace: Pace, tried: set<AccountId>) {
    && tried <= PickableAccounts(db)
    && (forall r :: r in tried ==> !Acceptable(db, tt, pace, r))
    && (forall r, c :: r in tried && c in PickableAccounts(db) - tried ==> UsedBefore(db, r, c))
  }

  lemma ScanOneMore(db: Db, tt: TaskType, pace: Pace, tried: set<AccountId>, a: AccountId)
    requires Scanned(db, tt, pace, tried) && IsLruPick(db, tried, a) && !Acceptable(db, tt, pace, a)
    ensures Scanned(db, tt, pace, tried + {a})
  {
  }

  lemma ScanFindsFirst(db: Db, tt: TaskType, pace: Pace, tried: set<AccountId>, a: AccountId)
    requires Scanned(db, tt, pace, tried) && IsLruPick(db, tried, a) && Acceptable(db, tt, pace, a)
    ensures FirstAcceptable(db, tt, pace, a) && tried == AheadOf(db, a)
  {
    forall b: AccountId | Acceptable(db, tt, pace, b) ensures UsedBefore(db, a, b) {
      assert b !in tried;
    }
    forall b ensures b in tried <==> b in AheadOf(db, a) {
      if b in PickableAccounts(db) && b !in tried {
        assert UsedBefore(db, a, b);
      }
      assert a in PickableAccounts(db) - tried;
    }
  }

  /** Why nobody was found: the last account whose budget failed, if any budget failed. */
  ghost predicate LastWithoutBudget(db: Db, tt: TaskType, tried: set<AccountId>, last: Option<AccountId>)
    requires tried <= PickableAccounts(db)
  {
    && (last.None? ==> forall r :: r in tried ==> HasBudget(db, r, tt))
    && (last.Some? ==> last.value in tried && !HasBudget(db, last.value, tt))
    && (last.Some? ==> forall r :: r in tried && !HasBudget(db, r, tt) ==> UsedBefore(db, r, last.value))
  }

  ghost predicate LongestWait(db: Db, tt: TaskType, pace: Pace, tried: set<AccountId>, wait: real) {
    && (forall r :: r in tried && HasBudget(db, r, tt) ==> WaitFor(pace, r) <= wait)
    && (wait > 0.0 ==> exists r :: r in tried && HasBudget(db, r, tt) && WaitFor(pace, r) == wait)
    && wait >= 0.0
  }

  /** Reason and delay of the postponement when no account is acceptable. */
  ghost predicate NobodyFound(db: Db, tt: TaskType, pace: Pace, cap: int, reason: string, delay: int) {
    exists last, wait ::
      && LastWithoutBudget(db, tt, PickableAccounts(db), last) && LongestWait(db, tt, pace, PickableAccounts(db), wait)
      && (last.Some? ==>
            reason == ResourceReason(CheckAccount(db, last.value, tt, Primary), last.value) && delay == cap)
      && (last.None? && wait > 0.0 ==> reason == PACING && delay == PacingDelay(wait, cap))
      && (last.None? && wait <= 0.0 ==> PickableAccounts(db) == {} && reason == "no_available_account" && delay == cap)
  }

  /** The state of the search after `tried`: the last account without budget and the longest
      wait seen. */
  ghost predicate Searching(db: Db, tt: TaskType, pace: Pace, tried: set<AccountId>, last: Option<AccountId>,
                            wait: real) {
    && Scanned(db, tt, pace, tried)
    && LastWithoutBudget(db, tt, tried, last) && LongestWait(db, tt, pace, tried, wait)
    && (last.None? && tried != {} ==> wait > 0.0)
  }

  lemma SearchBegins(db: Db, tt: TaskType, pace: Pace)
    ensures Searching(db, tt, pace, {}, None, 0.0)
    ensures Tried(db, {}) == db
  {
    assert Tried(db, {}).accounts == db.accounts;
  }

  lemma SearchPastBudget(db: Db, tt: TaskType, pace: Pace, tried: set<AccountId>, last: Option<AccountId>, wait: real,
                         a: AccountId)
    requires Searching(db, tt, pace, tried, last, wait) && IsLruPick(db, tried, a) && !HasBudget(db, a, tt)
    ensures Searching(db, tt, pace, tried + {a}, Some(a), wait)
  {
    ScanOneMore(db, tt, pace, tried, a);
    assert a in PickableAccounts(db) - tried;
    if wait > 0.0 {
      var r :| r in tried && HasBudget(db, r, tt) && WaitFor(pace, r) == wait;
      assert r in tried + {a};
    }
  }

  lemma SearchPastPacing(db: Db, tt: TaskType, pace: Pace, tried: set<AccountId>, last: Option<AccountId>, wait: real,
                         a: AccountId)
    requires Searching(db, tt, pace, tried, last, wait) && IsLruPick(db, tried, a)
    requires HasBudget(db, a, tt) && !SlotFree(pace, tt, a)
    ensures Searching(db, tt, pace, tried + {a}, last, if wait >= WaitFor(pace, a) then wait else WaitFor(pace, a))
  {
    ScanOneMore(db, tt, pace, tried, a);
    if wait >= WaitFor(pace, a) {
      var r :| r in tried && HasBudget(db, r, tt) && WaitFor(pace, r) == wait;
      assert r in tried + {a};
    } else {
      assert a in tried + {a} && HasBudget(db, a, tt);
    }
  }

  lemma SearchEnds(db: Db, tt: TaskType, pace: Pace, tried: set<AccountId>, last: Option<AccountId>, wait: real)
    requires Searching(db, tt, pace, tried, last, wait)
    requires forall a :: Pickable(Tried(db, tried), a) ==> a in tried
    ensures tried == PickableAccounts(db)
    ensures forall a: AccountId :: !Acceptable(db, tt, pace, a)
  {
    forall a | a in PickableAccounts(db) ensures a in tried {
      TriedKeepsPickable(db, tried, a);
    }
  }

  const PACING := "pacing"

  /** A refused budget explains the failure before a pacing wait does. */
  function WhyNobody(lastCheck: Option<CheckResult>, lastAccount: AccountId, longestWait: real,
                     anyRejected: bool): string {
    if lastCheck.Some? then ResourceReason(lastCheck.value, lastAccount)
    else if longestWait > 0.0 then PACING
    else if anyRejected then "insufficient_resource"
    else "no_available_account"
  }

  lemma ResourceReasonIsNotPacing(check: CheckResult, account: AccountId)
    ensures ResourceReason(check, account) != PACING
  {
    assert ResourceReason(check, account)[0] != 'p';
  }

  lemma WhyIsRight(db: Db, tt: TaskType, pace: Pace, last: Option<AccountId>, wait: real, cap: int)
    requires Searching(db, tt, pace, PickableAccounts(db), last, wait)
    ensures var check := if last.Some? then Some(CheckAccount(db, last.value, tt, Primary)) else None;
      var reason := WhyNobody(check, if last.Some? then last.value else 0, wait, PickableAccounts(db) != {});
      NobodyFound(db, tt, pace, cap, reason, if reason == PACING then PacingDelay(wait, cap) else cap)
  {
    var all := PickableAccounts(db);
    var check := if last.Some? then Some(CheckAccount(db, last.value, tt, Primary)) else None;
    var reason := WhyNobody(check, if last.Some? then last.value else 0, wait, all != {});
    if last.Some? {
      ResourceReasonIsNotPacing(check.value, last.value);
    }
    assert LastWithoutBudget(db, tt, all, last) && LongestWait(db, tt, pace, all, wait);
  }

  // ----- the fixed account and the pair, on values -----

  /** The outcome of a reservation attempt that may refuse for a stated reason. */
  datatype Decision = Granted | RefusedFor(reason: string, delay: int, unassign: bool)

  function FixedDecision(db: Db, tt: TaskType, pace: Pace, a: AccountId, cap: int): Decision {
    if !CanReserve(db, a) then RefusedFor("account_reserve_failed:" + Digits(a), cap, UnassignsWhenRefused(tt))
    else if !HasBudget(db, a, tt) then RefusedFor(ResourceReason(CheckAccount(db, a, tt, Primary), a), cap, false)
    else if !SlotFree(pace, tt, a) then RefusedFor(PACING, PacingDelay(WaitFor(pace, a), cap), false)
    else Granted
  }

  function PairDecision(db: Db, tt: TaskType, source: Option<AccountId>, target: Option<AccountId>,
                        cap: int): Decision {
    if source.None? || target.None? then RefusedFor("missing_dual_accounts", cap, false)
    else if source == target then RefusedFor("dual_accounts_same_id", cap, false)
    else
      var ofSource := CheckAccount(db, source.value, tt, Source);
      var ofTarget := CheckAccount(db, target.value, tt, Target);
      if !ofSource.CheckOk? then RefusedFor(ResourceReason(ofSource, source.value), cap, false)
      else if !ofTarget.CheckOk? then RefusedFor(ResourceReason(ofTarget, target.value), cap, false)
      else if !CanReservePair(db, source.value, target.value) then
        RefusedFor("dual_account_reserve_failed:" + Digits(source.value) + ":" + Digits(target.value), cap,
                   UnassignsWhenRefused(tt))
      else Granted
  }

  function Refuse(db: Db, task: ClaimedTask, tt: TaskType, d: Decision): Db
    requires d.RefusedFor?
  {
    PostponeTask(if d.unassign then AssignAccount(db, task.id, None, Some(task.lock)) else db, task, d.delay, d.reason)
  }

  // What refusing after a reservation leaves of the account: a fresh last use.
  function Touched(db: Db, a: AccountId): Db {
    if CanReserve(db, a) then PutAccount(db, a, db.accounts[a].(lastUsedAt := Some(db.now))) else db
  }

  lemma ReserveAndGiveBack(db: Db, a: AccountId, task: TaskId)
    requires CanReserve(db, a)
    ensures Release(Reserve(db, a, task), a, task) == Touched(db, a)
    ensures Reservations(Touched(db, a)) == Reservations(db)
  {
    assert Release(Reserve(db, a, task), a, task).accounts[a] == Touched(db, a).accounts[a];
  }
}
