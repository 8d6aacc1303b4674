/** What the three ways to reserve leave in the tables, row by row: when an account is granted,
    and how a refused task is postponed. */
module ReservationRows {
  import opened Schema
  import opened QueueTable
  import opened AccountTable
  import opened UsageLog
  import opened Pacing
  import opened Effects
  import opened Reserving

  // ----- the texts -----

  predicate Decimal(s: string) {
    forall i :: 0 <= i < |s| ==> '0' <= s[i] <= '9'
  }

  function NumberIn(s: string): nat
    requires Decimal(s)
  {
    if s == "" then 0 else NumberIn(s[..|s| - 1]) * 10 + (s[|s| - 1] as int - '0' as int)
  }

  /** The digits of an account in a reason read back as its id. */
  lemma {:induction false} DigitsReadBack(n: nat)
    ensures Decimal(Digits(n)) && NumberIn(Digits(n)) == n
  {
    assert "0123456789"[n % 10] as int == '0' as int + n % 10;
    if n < 10 {
      assert NumberIn("") == 0 && Digits(n)[..0] == "";
    } else {
      DigitsReadBack(n / 10);
      assert Digits(n)[..|Digits(n)| - 1] == Digits(n / 10);
    }
  }

  /** Why a check refused: the role has no work, or the first of its operations, in the order of
      the list, whose gate does not pass. */
  ghost predicate BudgetReason(db: Db, account: AccountId, tt: TaskType, role: Role, reason: string) {
    if exists op :: op in tt.ops && op.role == role && op.enabled then
      exists i: nat ::
        && FailsFirst(db, account, tt.ops, role, ThresholdOf(db, tt), i)
        && reason == "insufficient_resource:" + Digits(account) + ":" + tt.ops[i].opCode
    else
      reason == "no_ops_for_role:"
                + (match role case Primary => "primary" case Source => "source" case Target => "target")
  }

  lemma RefusedBudget(db: Db, account: AccountId, tt: TaskType, role: Role)
    ensures var check := CheckAccount(db, account, tt, role);
      && (check.CheckOk? <==> WithinBudget(db, account, tt, role))
      && (!check.CheckOk? ==> BudgetReason(db, account, tt, role, ResourceReason(check, account)))
  {
    CheckPassesIff(db, account, tt, role);
    CheckNamesFirst(db, account, tt, role);
  }

  // The types whose refused task gives up its account and looks for another.
  predicate SeeksAnother(tt: TaskType) {
    && !tt.usesTwoAccounts
    && (tt.code == "telegram_discover" || tt.code == "telegram_discover_leads" || tt.code == "discover_groups"
        || tt.code == "collect_extra_data" || tt.code == "update_channel")
  }

  lemma SeeksAnotherIff(tt: TaskType)
    ensures SeeksAnother(tt) <==> UnassignsWhenRefused(tt)
  {
    assert "parser_add_channel"[0] == 'p';
  }

  // ----- the refused task -----

  /** Of a task in force the row is postponed with the reason, and without its account if the
      task looks for another; nothing else in the queue changes. */
  ghost predicate RefusedRow(x: Db, y: Db, task: ClaimedTask, delay: int, reason: string, unassigned: bool) {
    && (!Fenced(x, task.id, Some(task.lock)) ==> y.tasks == x.tasks)
    && (Fenced(x, task.id, Some(task.lock)) && x.tasks[task.id].typeCode in x.types ==>
          && task.id in y.tasks && y.tasks == x.tasks[task.id := y.tasks[task.id]]
          && var r, t := x.tasks[task.id], y.tasks[task.id];
          && OnlyClosed(r, t, x.now, r.attemptCount) && t.payload == r.payload
          && PostponedRow(r, t, x.now, AllowedPostpones(x, r), delay, Some(reason))
          && t.accountId == if unassigned then None else r.accountId)
  }

  lemma RefusingWrites(x: Db, reached: Db, task: ClaimedTask, tt: TaskType, d: Decision)
    requires d.RefusedFor? && reached == x.(accounts := reached.accounts)
    ensures var y := Refuse(reached, task, tt, d);
      y == reached.(tasks := y.tasks) && RefusedRow(x, y, task, d.delay, d.reason, d.unassign)
  {
  }

  // ----- the pair -----

  // Both ids are given and differ, and both roles are within budget: the accounts are tried.
  ghost predicate PairIsTried(db: Db, task: ClaimedTask, tt: TaskType) {
    && task.sourceAccountId.Some? && task.targetAccountId.Some? && task.sourceAccountId != task.targetAccountId
    && WithinBudget(db, task.sourceAccountId.value, tt, Source)
    && WithinBudget(db, task.targetAccountId.value, tt, Target)
  }

  ghost predicate PairGranted(db: Db, task: ClaimedTask, tt: TaskType) {
    PairIsTried(db, task, tt) && PairMayBeReserved(db, task.sourceAccountId.value, task.targetAccountId.value)
  }

  // The first thing that stands in the way of a pair.
  ghost predicate PairReason(db: Db, task: ClaimedTask, tt: TaskType, reason: string) {
    var s, t := task.sourceAccountId, task.targetAccountId;
    if s.None? || t.None? then reason == "missing_dual_accounts"
    else if s == t then reason == "dual_accounts_same_id"
    else if !WithinBudget(db, s.value, tt, Source) then BudgetReason(db, s.value, tt, Source, reason)
    else if !WithinBudget(db, t.value, tt, Target) then BudgetReason(db, t.value, tt, Target, reason)
    else reason == "dual_account_reserve_failed:" + Digits(s.value) + ":" + Digits(t.value)
  }

  /** A pair is granted or refused, and what either leaves. */
  ghost predicate PairShows(x: Db, y: Db, task: ClaimedTask, tt: TaskType, delay: int, ok: bool) {
    && (ok <==> PairGranted(x, task, tt))
    && (ok ==>
          var s, t := task.sourceAccountId.value, task.targetAccountId.value;
          y == x.(accounts := x.accounts[s := TakenBy(x.accounts[s], task.id, x.now)]
                                        [t := TakenBy(x.accounts[t], task.id, x.now)]))
    && (!ok ==>
          && y == x.(tasks := y.tasks)
          && exists reason ::
               && PairReason(x, task, tt, reason)
               && RefusedRow(x, y, task, delay, reason, PairIsTried(x, task, tt) && SeeksAnother(tt)))
  }

  lemma PairDecisionIs(db: Db, task: ClaimedTask, tt: TaskType, delay: int)
    ensures var d := PairDecision(db, tt, task.sourceAccountId, task.targetAccountId, delay);
      && (d.Granted? <==> PairGranted(db, task, tt))
      && (d.RefusedFor? ==>
            && PairReason(db, task, tt, d.reason) && d.delay == delay
            && d.unassign == (PairIsTried(db, task, tt) && SeeksAnother(tt)))
  {
    if task.sourceAccountId.Some? && task.targetAccountId.Some? {
      RefusedBudget(db, task.sourceAccountId.value, tt, Source);
      RefusedBudget(db, task.targetAccountId.value, tt, Target);
      CanReservePairIff(db, task.sourceAccountId.value, task.targetAccountId.value);
      SeeksAnotherIff(tt);
    }
  }

  lemma PairIsShown(x: Db, task: ClaimedTask, tt: TaskType, delay: int)
    ensures var s, t := task.sourceAccountId, task.targetAccountId;
      var d := PairDecision(x, tt, s, t, delay);
      var y := if d.Granted? then ReservePair(x, s.value, t.value, task.id) else Refuse(x, task, tt, d);
      PairShows(x, y, task, tt, delay, d.Granted?)
  {
    var d := PairDecision(x, tt, task.sourceAccountId, task.targetAccountId, delay);
    PairDecisionIs(x, task, tt, delay);
    if d.Granted? {
      ReservationsWrite(x, task.sourceAccountId.value, task.targetAccountId.value, task.id);
    } else {
      RefusingWrites(x, x, task, tt, d);
    }
  }

  // ----- pacing -----

  predicate IsPaced(pace: Pace, tt: TaskType) {
    tt.code == "parser_add_channel" && pace.interval > 0.0
  }

  function SlotStart(pace: Pace, a: AccountId): real {
    if a in pace.slots then pace.slots[a] else 0.0
  }

  predicate SlotReady(pace: Pace, tt: TaskType, a: AccountId) {
    IsPaced(pace, tt) ==> SlotStart(pace, a) <= pace.clock
  }

  // The slots once the account has taken its own: the next opens an interval later.
  function SlotsMoved(pace: Pace, tt: TaskType, a: AccountId): map<AccountId, real> {
    if IsPaced(pace, tt) then pace.slots[a := pace.clock + pace.interval] else pace.slots
  }

  lemma SlotReadyIff(pace: Pace, tt: TaskType, a: AccountId)
    ensures SlotFree(pace, tt, a) <==> SlotReady(pace, tt, a)
    ensures SlotFree(pace, tt, a) ==> SlotsTaken(pace, tt, a) == SlotsMoved(pace, tt, a)
    ensures !SlotFree(pace, tt, a) ==> WaitFor(pace, a) == SlotStart(pace, a) - pace.clock > 0.0
  {
  }

  // ----- the fixed account -----

  ghost predicate FixedGranted(db: Db, tt: TaskType, pace: Pace, a: AccountId) {
    && a in db.accounts && MayBeReserved(db.accounts[a], db.now)
    && WithinBudget(db, a, tt, Primary) && SlotReady(pace, tt, a)
  }

  /** What a refused fixed account leaves: how the task is postponed, by the first thing that
      stands in the way, and a fresh time of use if the account was reserved for the checks. */
  ghost predicate FixedRefused(x: Db, y: Db, task: ClaimedTask, tt: TaskType, pace: Pace, a: AccountId, cap: int) {
    if !(a in x.accounts && MayBeReserved(x.accounts[a], x.now)) then
      && y.accounts == x.accounts
      && RefusedRow(x, y, task, cap, "account_reserve_failed:" + Digits(a), SeeksAnother(tt))
    else
      && y.accounts == x.accounts[a := x.accounts[a].(lastUsedAt := Some(x.now))]
      && if !WithinBudget(x, a, tt, Primary) then
           exists reason :: BudgetReason(x, a, tt, Primary, reason) && RefusedRow(x, y, task, cap, reason, false)
         else
           && !SlotReady(pace, tt, a)
           && RefusedRow(x, y, task, PacingDelay(SlotStart(pace, a) - pace.clock, cap), "pacing", false)
  }

  ghost predicate FixedShows(x: Db, y: Db, task: ClaimedTask, tt: TaskType, pace: Pace, slots: map<AccountId, real>,
                             a: AccountId, cap: int, ok: bool) {
    && (ok <==> FixedGranted(x, tt, pace, a))
    && y == x.(accounts := y.accounts, tasks := y.tasks)
    && (ok ==> && y.tasks == x.tasks && y.accounts == x.accounts[a := TakenBy(x.accounts[a], task.id, x.now)]
               && slots == SlotsMoved(pace, tt, a))
    && (!ok ==> slots == pace.slots && FixedRefused(x, y, task, tt, pace, a, cap))
  }

  lemma FixedIsGranted(db: Db, tt: TaskType, pace: Pace, a: AccountId, cap: int)
    ensures FixedDecision(db, tt, pace, a, cap).Granted? <==> FixedGranted(db, tt, pace, a)
  {
    CanReserveIff(db, a);
    RefusedBudget(db, a, tt, Primary);
    SlotReadyIff(pace, tt, a);
  }

  lemma FixedIsRefused(x: Db, task: ClaimedTask, tt: TaskType, pace: Pace, a: AccountId, cap: int)
    requires FixedDecision(x, tt, pace, a, cap).RefusedFor?
    ensures var y := Refuse(Touched(x, a), task, tt, FixedDecision(x, tt, pace, a, cap));
      y == x.(accounts := y.accounts, tasks := y.tasks) && FixedRefused(x, y, task, tt, pace, a, cap)
  {
    CanReserveIff(x, a);
    RefusedBudget(x, a, tt, Primary);
    SlotReadyIff(pace, tt, a);
    SeeksAnotherIff(tt);
    RefusingWrites(x, Touched(x, a), task, tt, FixedDecision(x, tt, pace, a, cap));
  }

  lemma FixedIsShown(x: Db, task: ClaimedTask, tt: TaskType, pace: Pace, a: AccountId, cap: int)
    ensures var d := FixedDecision(x, tt, pace, a, cap);
      var y := if d.Granted? then Reserve(x, a, task.id) else Refuse(Touched(x, a), task, tt, d);
      FixedShows(x, y, task, tt, pace, if d.Granted? then SlotsTaken(pace, tt, a) else pace.slots, a, cap, d.Granted?)
  {
    FixedIsGranted(x, tt, pace, a, cap);
    if FixedDecision(x, tt, pace, a, cap).Granted? {
      ReservationsWrite(x, a, a, task.id);
      SlotReadyIff(pace, tt, a);
    } else {
      FixedIsRefused(x, task, tt, pace, a, cap);
    }
  }

  // ----- the search -----

  /** An account the search accepts: free, in service, rested, within budget, its slot open. */
  ghost predicate Fits(db: Db, tt: TaskType, pace: Pace, a: AccountId) {
    && a in db.accounts && MayBePicked(db.accounts[a], db.now)
    && WithinBudget(db, a, tt, Primary) && SlotReady(pace, tt, a)
  }

  lemma FitsIff(db: Db, tt: TaskType, pace: Pace, a: AccountId)
    ensures Acceptable(db, tt, pace, a) <==> Fits(db, tt, pace, a)
  {
    PickableIff(db, a);
    CheckPassesIff(db, a, tt, Primary);
    SlotReadyIff(pace, tt, a);
  }

  // The account that fits and has gone unused for longest.
  ghost predicate FirstFit(db: Db, tt: TaskType, pace: Pace, a: AccountId) {
    && Fits(db, tt, pace, a)
    && forall b: AccountId :: Fits(db, tt, pace, b) ==> NextInLine(db.accounts[a], a, db.accounts[b], b)
  }

  lemma FirstFitIff(db: Db, tt: TaskType, pace: Pace, a: AccountId)
    ensures FirstAcceptable(db, tt, pace, a) <==> FirstFit(db, tt, pace, a)
  {
    FitsIff(db, tt, pace, a);
    if Fits(db, tt, pace, a) {
      forall b: AccountId
        ensures Acceptable(db, tt, pace, b) <==> Fits(db, tt, pace, b)
        ensures b in db.accounts ==> (UsedBefore(db, a, b) <==> NextInLine(db.accounts[a], a, db.accounts[b], b))
      {
        FitsIff(db, tt, pace, b);
        if b in db.accounts { UsedBeforeIff(db, a, b); }
      }
    }
  }

  // An account picked, found wanting and given back: usable, and used just now.
  function GivenBack(row: Account, now: Time): Account {
    row.(lastUsedAt := Some(now), status := Usable)
  }

  /** The account chosen is reserved; the free and healthy ones ahead of it were tried and given
      back; no other row has changed. */
  ghost predicate PickedFrom(x: Db, y: Db, a: AccountId, task: TaskId)
    requires a in x.accounts
  {
    && y == x.(accounts := y.accounts) && y.accounts.Keys == x.accounts.Keys
    && forall b :: b in x.accounts ==>
         y.accounts[b] == if b == a then TakenBy(x.accounts[a], task, x.now).(status := Usable)
                          else if MayBePicked(x.accounts[b], x.now) && NextInLine(x.accounts[b], b, x.accounts[a], a)
                          then GivenBack(x.accounts[b], x.now) else x.accounts[b]
  }

  // All free and healthy accounts were tried and given back.
  ghost predicate AllTried(x: Db, y: Db) {
    && y.accounts.Keys == x.accounts.Keys
    && forall b :: b in x.accounts ==>
         y.accounts[b] == if MayBePicked(x.accounts[b], x.now) then GivenBack(x.accounts[b], x.now) else x.accounts[b]
  }

  ghost predicate ShortOfBudget(db: Db, tt: TaskType, a: AccountId) {
    a in db.accounts && MayBePicked(db.accounts[a], db.now) && !WithinBudget(db, a, tt, Primary)
  }

  ghost predicate LastShort(db: Db, tt: TaskType, a: AccountId) {
    && ShortOfBudget(db, tt, a)
    && forall b: AccountId :: ShortOfBudget(db, tt, b) ==> NextInLine(db.accounts[b], b, db.accounts[a], a)
  }

  ghost predicate LongestClosed(db: Db, pace: Pace, a: AccountId) {
    && a in db.accounts && MayBePicked(db.accounts[a], db.now)
    && forall b :: b in db.accounts && MayBePicked(db.accounts[b], db.now) ==> SlotStart(pace, b) <= SlotStart(pace, a)
  }

  /** Why nobody was found, and for how long to wait: the budget of the last account that has
      none; or the slot that opens last, if it is pacing alone; or that nobody is free. */
  ghost predicate SearchReason(db: Db, tt: TaskType, pace: Pace, cap: int, reason: string, delay: int) {
    if exists a: AccountId :: ShortOfBudget(db, tt, a) then
      delay == cap && exists a: AccountId :: LastShort(db, tt, a) && BudgetReason(db, a, tt, Primary, reason)
    else if exists a :: a in db.accounts && MayBePicked(db.accounts[a], db.now) then
      && reason == "pacing"
      && exists a: AccountId ::
           && LongestClosed(db, pace, a) && SlotStart(pace, a) > pace.clock
           && delay == PacingDelay(SlotStart(pace, a) - pace.clock, cap)
    else reason == "no_available_account" && delay == cap
  }

  ghost predicate PickShows(x: Db, y: Db, task: ClaimedTask, tt: TaskType, pace: Pace, slots: map<AccountId, real>,
                            cap: int, chosen: Option<AccountId>) {
    match chosen
    case Some(a) => FirstFit(x, tt, pace, a) && PickedFrom(x, y, a, task.id) && slots == SlotsMoved(pace, tt, a)
    case None =>
      && (forall a: AccountId :: !Fits(x, tt, pace, a)) && slots == pace.slots
      && y == x.(accounts := y.accounts, tasks := y.tasks) && AllTried(x, y)
      && exists reason, delay :: SearchReason(x, tt, pace, cap, reason, delay)
                                 && RefusedRow(x, y, task, delay, reason, false)
  }

  lemma PickIsShown(x: Db, task: ClaimedTask, tt: TaskType, pace: Pace, a: AccountId, cap: int)
    requires FirstAcceptable(x, tt, pace, a)
    ensures PickShows(x, TakePicked(Tried(x, AheadOf(x, a)), a, task.id), task, tt, pace, SlotsTaken(pace, tt, a), cap,
                      Some(a))
  {
    FirstFitIff(x, tt, pace, a);
    SlotReadyIff(pace, tt, a);
    TriedAhead(x, a, task.id);
  }

  lemma TriedAhead(x: Db, a: AccountId, task: TaskId)
    requires a in x.accounts
    ensures PickedFrom(x, TakePicked(Tried(x, AheadOf(x, a)), a, task), a, task)
  {
    forall b | b in x.accounts
      ensures b in AheadOf(x, a) <==>
        b != a && MayBePicked(x.accounts[b], x.now) && NextInLine(x.accounts[b], b, x.accounts[a], a)
    {
      PickableIff(x, b);
      UsedBeforeIff(x, b, a);
    }
  }

  lemma NobodyIsShown(x: Db, task: ClaimedTask, tt: TaskType, pace: Pace, cap: int, reason: string, delay: int)
    requires NobodyFound(x, tt, pace, cap, reason, delay) && forall a: AccountId :: !Acceptable(x, tt, pace, a)
    ensures PickShows(x, PostponeTask(Tried(x, PickableAccounts(x)), task, delay, reason), task, tt, pace, pace.slots,
                      cap, None)
  {
    forall a: AccountId ensures !Fits(x, tt, pace, a) {
      FitsIff(x, tt, pace, a);
    }
    NobodyHasReason(x, tt, pace, cap, reason, delay);
    var reached := Tried(x, PickableAccounts(x));
    RefusingWrites(x, reached, task, tt, RefusedFor(reason, delay, false));
    assert AllTried(x, reached);
  }

  lemma PickableOnes(db: Db, a: AccountId)
    ensures a in PickableAccounts(db) <==> a in db.accounts && MayBePicked(db.accounts[a], db.now)
  {
    PickableIff(db, a);
  }

  lemma NobodyHasReason(db: Db, tt: TaskType, pace: Pace, cap: int, reason: string, delay: int)
    requires NobodyFound(db, tt, pace, cap, reason, delay) && forall a: AccountId :: !Acceptable(db, tt, pace, a)
    ensures SearchReason(db, tt, pace, cap, reason, delay)
  {
    var last, wait :|
      && LastWithoutBudget(db, tt, PickableAccounts(db), last) && LongestWait(db, tt, pace, PickableAccounts(db), wait)
      && (last.Some? ==>
            reason == ResourceReason(CheckAccount(db, last.value, tt, Primary), last.value) && delay == cap)
      && (last.None? && wait > 0.0 ==> reason == PACING && delay == PacingDelay(wait, cap))
      && (last.None? && wait <= 0.0 ==> PickableAccounts(db) == {} && reason == "no_available_account" && delay == cap);
    if last.Some? {
      BudgetIsWhy(db, tt, pace, cap, last.value);
    } else if wait > 0.0 {
      var a :| a in PickableAccounts(db) && HasBudget(db, a, tt) && WaitFor(pace, a) == wait;
      PacingIsWhy(db, tt, pace, cap, a);
    } else {
      NobodyIsFree(db, tt, pace, cap);
    }
  }

  lemma BudgetIsWhy(db: Db, tt: TaskType, pace: Pace, cap: int, last: AccountId)
    requires LastWithoutBudget(db, tt, PickableAccounts(db), Some(last))
    ensures SearchReason(db, tt, pace, cap, ResourceReason(CheckAccount(db, last, tt, Primary), last), cap)
  {
    LastIsShort(db, tt, last);
    RefusedBudget(db, last, tt, Primary);
  }

  lemma NobodyIsFree(db: Db, tt: TaskType, pace: Pace, cap: int)
    requires PickableAccounts(db) == {}
    ensures SearchReason(db, tt, pace, cap, "no_available_account", cap)
  {
    forall a | a in db.accounts ensures !MayBePicked(db.accounts[a], db.now) {
      PickableOnes(db, a);
    }
  }

  lemma LastIsShort(db: Db, tt: TaskType, last: AccountId)
    requires LastWithoutBudget(db, tt, PickableAccounts(db), Some(last))
    ensures LastShort(db, tt, last)
  {
    PickableOnes(db, last);
    CheckPassesIff(db, last, tt, Primary);
    forall b: AccountId | ShortOfBudget(db, tt, b) ensures NextInLine(db.accounts[b], b, db.accounts[last], last) {
      PickableOnes(db, b);
      CheckPassesIff(db, b, tt, Primary);
      UsedBeforeIff(db, b, last);
    }
  }

  lemma PacingIsWhy(db: Db, tt: TaskType, pace: Pace, cap: int, a: AccountId)
    requires LastWithoutBudget(db, tt, PickableAccounts(db), None) && a in PickableAccounts(db)
    requires LongestWait(db, tt, pace, PickableAccounts(db), WaitFor(pace, a)) && WaitFor(pace, a) > 0.0
    ensures SearchReason(db, tt, pace, cap, "pacing", PacingDelay(WaitFor(pace, a), cap))
  {
    PickableOnes(db, a);
    forall b: AccountId ensures !ShortOfBudget(db, tt, b) {
      PickableOnes(db, b);
      CheckPassesIff(db, b, tt, Primary);
    }
    forall b | b in db.accounts && MayBePicked(db.accounts[b], db.now)
      ensures SlotStart(pace, b) <= SlotStart(pace, a)
    {
      PickableOnes(db, b);
      assert b in PickableAccounts(db) && WaitFor(pace, b) <= WaitFor(pace, a);
    }
    assert LongestClosed(db, pace, a);
  }
}
