/** The statements on `accounts`: picking, reserving, releasing and health changes. */
module AccountTable {
  import opened Schema

  predicate CooldownOver(row: Account, now: Time) {
    row.cooldownUntil.None? || row.cooldownUntil.value <= now
  }

  predicate Healthy(row: Account, now: Time) {
    (row.status.Usable? || row.status.Cooldown?) && row.isEnabled && CooldownOver(row, now)
  }

  predicate Pickable(db: Db, a: AccountId) {
    a in db.accounts && db.accounts[a].currentTask.None? && Healthy(db.accounts[a], db.now)
  }

  function PutAccount(db: Db, a: AccountId, row: Account): Db {
    db.(accounts := db.accounts[a := row])
  }

  // ----- plain reservation: looks at the reservation and the cooldown, not at the status -----

  predicate CanReserve(db: Db, a: AccountId) {
    a in db.accounts && db.accounts[a].currentTask.None? && CooldownOver(db.accounts[a], db.now)
  }

  function Reserve(db: Db, a: AccountId, task: TaskId): Db {
    if CanReserve(db, a) then
      PutAccount(db, a, db.accounts[a].(currentTask := Some(task), lastUsedAt := Some(db.now)))
    else db
  }

  // Release compares the task id only, not the claim under which it was taken.
  function Release(db: Db, a: AccountId, task: TaskId): Db {
    if a in db.accounts && db.accounts[a].currentTask == Some(task) then
      PutAccount(db, a, db.accounts[a].(currentTask := None))
    else db
  }

  // ----- pair reservation -----

  predicate DeadStatus(status: AccountStatus) {
    status.Banned? || status.Disabled? || status.Error?
  }

  predicate PairLockable(db: Db, source: AccountId, target: AccountId) {
    source in db.accounts && db.accounts[source].currentTask.None?
    && (DeadStatus(db.accounts[source].status) || Healthy(db.accounts[source], db.now))
    && Pickable(db, target)
  }

  /** The transaction: lock both rows, reserve the source, reserve the target; a refusal at
      any stage leaves the table as it was. A dead source passes the lock even while its
      cooldown runs, but the plain reservation still refuses it. */
  function ReservePair(db: Db, source: AccountId, target: AccountId, task: TaskId): Db {
    if source == target || !PairLockable(db, source, target) || !CanReserve(db, source) then db
    else
      var half := Reserve(db, source, task);
      if CanReserve(half, target) then Reserve(half, target, task) else db
  }

  predicate CanReservePair(db: Db, source: AccountId, target: AccountId) {
    source != target && PairLockable(db, source, target) && CanReserve(db, source)
  }

  // ----- pick and reserve -----

  /** ORDER BY last_used_at ASC NULLS FIRST, id ASC. */
  predicate UsedBefore(db: Db, a: AccountId, b: AccountId)
    requires a in db.accounts && b in db.accounts
  {
    var x, y := db.accounts[a].lastUsedAt, db.accounts[b].lastUsedAt;
    if x == y then a <= b
    else x.None? || (y.Some? && x.value < y.value)
  }

  ghost predicate IsLruPick(db: Db, excluded: set<AccountId>, a: AccountId) {
    Pickable(db, a) && a !in excluded
    && forall b :: Pickable(db, b) && b !in excluded ==> UsedBefore(db, a, b)
  }

  // Picking also resets the status; the elapsed cooldown stays in place.
  function TakePicked(db: Db, a: AccountId, task: TaskId): Db
    requires a in db.accounts
  {
    PutAccount(db, a, db.accounts[a].(currentTask := Some(task), lastUsedAt := Some(db.now), status := Usable))
  }

  // ----- health -----

  function SetCooldown(db: Db, a: AccountId, until: Time): Db {
    if a in db.accounts then
      var row := db.accounts[a];
      PutAccount(db, a, row.(
        cooldownUntil :=
          if row.cooldownUntil.Some? && row.cooldownUntil.value >= until then row.cooldownUntil else Some(until),
        status := if row.status.Banned? then Banned else Cooldown))
    else db
  }

  function ClearExpiredCooldowns(db: Db): Db {
    db.(accounts := map a | a in db.accounts ::
          var row := db.accounts[a];
          if row.status.Cooldown? && CooldownOver(row, db.now) then row.(status := Usable, cooldownUntil := None)
          else row)
  }

  function SetBanned(db: Db, a: AccountId): Db {
    if a in db.accounts then
      PutAccount(db, a, db.accounts[a].(status := Banned, isEnabled := false, cooldownUntil := None,
                                        currentTask := None))
    else db
  }

  function SetAccountError(db: Db, a: AccountId): Db {
    if a in db.accounts && !db.accounts[a].status.Banned? then
      PutAccount(db, a, db.accounts[a].(status := Error, isEnabled := false, currentTask := None))
    else db
  }

  function Reactivate(db: Db, a: AccountId): Db {
    if a in db.accounts && db.accounts[a].status.Error? then
      PutAccount(db, a, db.accounts[a].(status := Usable, isEnabled := true))
    else db
  }

  // The account sync rewrites the status and enabled columns only.
  function SyncRow(db: Db, a: AccountId, status: AccountStatus, enabled: bool): Db {
    if a in db.accounts then PutAccount(db, a, db.accounts[a].(status := status, isEnabled := enabled)) else db
  }

  // ----- facts -----

  /** A pair is reserved whole or not at all, and only when neither account cools down. */
  lemma PairIsAllOrNothing(db: Db, source: AccountId, target: AccountId, task: TaskId)
    ensures CanReservePair(db, source, target) ==>
      var after := ReservePair(db, source, target, task);
      && Reservations(after) == Reservations(db)[source := Some(task)][target := Some(task)]
      && CooldownOver(db.accounts[source], db.now) && CooldownOver(db.accounts[target], db.now)
    ensures !CanReservePair(db, source, target) ==> ReservePair(db, source, target, task) == db
    ensures CanReservePair(db, source, target) ==>
      forall a :: a in db.accounts && a != source && a != target ==>
        ReservePair(db, source, target, task).accounts[a] == db.accounts[a]
  {
  }

  // The pick order is total, so the pick is unique.
  lemma LruPickIsUnique(db: Db, excluded: set<AccountId>, a: AccountId, b: AccountId)
    requires IsLruPick(db, excluded, a) && IsLruPick(db, excluded, b)
    ensures a == b
  {
    assert UsedBefore(db, a, b) && UsedBefore(db, b, a);
  }

  /** Reserving and releasing for the same task gives the reservation column back. */
  lemma ReleaseUndoesReserve(db: Db, a: AccountId, task: TaskId)
    ensures CanReserve(db, a) ==> Reservations(Release(Reserve(db, a, task), a, task)) == Reservations(db)
    ensures Pickable(db, a) ==> Reservations(Release(TakePicked(db, a, task), a, task)) == Reservations(db)
  {
  }

  /** A picked account goes to the back of the queue: once given back it is not picked again
      while another account, last used before now, could be. */
  lemma PickRotates(db: Db, a: AccountId, task: TaskId, other: AccountId)
    requires Pickable(db, a) && Pickable(db, other) && other != a
    requires db.accounts[other].lastUsedAt.Some? ==> db.accounts[other].lastUsedAt.value < db.now
    ensures !IsLruPick(Release(TakePicked(db, a, task), a, task), {}, a)
  {
    var after := Release(TakePicked(db, a, task), a, task);
    assert Pickable(after, other) && !UsedBefore(after, a, other);
  }

  /** Health keeps an account from being picked and from being the target of a pair, but not
      from a plain reservation, nor from being the source of a pair. */
  lemma PlainReserveIgnoresBan(db: Db, a: AccountId, target: AccountId)
    requires a in db.accounts
    ensures var after := SetBanned(db, a);
      && !Pickable(after, a) && CanReserve(after, a) && !CanReservePair(after, target, a)
      && (Pickable(after, target) ==> CanReservePair(after, a, target))
  {
  }

  // Clearing an elapsed cooldown shows in the status column only.
  lemma ClearingChangesNoChoice(db: Db, a: AccountId)
    ensures var after := ClearExpiredCooldowns(db);
      && (Pickable(after, a) <==> Pickable(db, a)) && (CanReserve(after, a) <==> CanReserve(db, a))
      && Reservations(after) == Reservations(db)
  {
  }
}
