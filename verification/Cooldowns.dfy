/** A cooldown, once written, is honoured by every way of reserving an account. */
module Cooldowns {
  import opened Schema
  import opened System

  predicate CoolingUntil(s: System, account: AccountId, until: Time) {
    account in s.db.accounts
    && (s.db.now < until ==>
          s.db.accounts[account].cooldownUntil.Some? && s.db.accounts[account].cooldownUntil.value >= until)
  }

  predicate StartsReservation(s: System, t: System, account: AccountId) {
    account in s.db.accounts && account in t.db.accounts
    && t.db.accounts[account].currentTask.Some?
    && t.db.accounts[account].currentTask != s.db.accounts[account].currentTask
  }

  lemma {:induction false} ActHonours(s: System, a: Actor, act: Act, account: AccountId, until: Time)
    requires CoolingUntil(s, account, until)
    ensures CoolingUntil(ApplyAct(s, a, act), account, until)
    ensures StartsReservation(s, ApplyAct(s, a, act), account) ==> s.db.now >= until
  {
    if act.ReserveOne? || act.ReserveTwo? || act.PickAny? || act.GiveBack? {
      TakingHonours(s, a, act, account, until);
    } else {
      OtherActsLeaveAccounts(s, a, act);
    }
  }

  lemma {:induction false} TakingHonours(s: System, a: Actor, act: Act, account: AccountId, until: Time)
    requires CoolingUntil(s, account, until) && (act.ReserveOne? || act.ReserveTwo? || act.PickAny? || act.GiveBack?)
    ensures CoolingUntil(ApplyAct(s, a, act), account, until)
    ensures StartsReservation(s, ApplyAct(s, a, act), account) ==> s.db.now >= until
  {
  }

  lemma {:induction false} OtherActsLeaveAccounts(s: System, a: Actor, act: Act)
    requires !act.ReserveOne? && !act.ReserveTwo? && !act.PickAny? && !act.GiveBack?
    ensures ApplyAct(s, a, act).db.accounts == s.db.accounts && ApplyAct(s, a, act).db.now == s.db.now
  {
  }

  lemma {:induction false} EventHonours(s: System, event: Event, account: AccountId, until: Time)
    requires CoolingUntil(s, account, until) && event != BanAccount(account)
    ensures CoolingUntil(ApplyEvent(s, event), account, until)
    ensures !StartsReservation(s, ApplyEvent(s, event), account)
  {
  }

  // Every reservation of the account started along the run starts at `until` or later.
  ghost predicate NoneBefore(s: System, steps: seq<Step>, account: AccountId, until: Time)
    decreases |steps|
  {
    steps == [] || ((StartsReservation(s, Apply(s, steps[0]), account) ==> s.db.now >= until)
                    && NoneBefore(Apply(s, steps[0]), steps[1..], account, until))
  }

  lemma {:induction false} CoolingRun(s: System, steps: seq<Step>, account: AccountId, until: Time)
    requires CoolingUntil(s, account, until) && Around(BanAccount(account)) !in steps
    ensures NoneBefore(s, steps, account, until)
    decreases |steps|
  {
    if steps != [] {
      match steps[0] {
        case By(a, act) => ActHonours(s, a, act, account, until);
        case Around(event) => EventHonours(s, event, account, until);
      }
      CoolingRun(Apply(s, steps[0]), steps[1..], account, until);
    }
  }

  /** After `set_cooldown(account, until)` no step of any run reserves the account before
      `until`, alone, as half of a pair or by a pick, as long as it is not banned meanwhile. */
  lemma CooldownIsHonoured(s: System, steps: seq<Step>, account: AccountId, until: Time)
    requires account in s.db.accounts && Around(BanAccount(account)) !in steps
    ensures NoneBefore(Apply(s, Around(CooldownAccount(account, until))), steps, account, until)
  {
    CoolingRun(Apply(s, Around(CooldownAccount(account, until))), steps, account, until);
  }

  /** A running cooldown ends early at a step exactly when the step bans the account. */
  lemma {:induction false} CooldownEndsEarlyIff(s: System, step: Step, account: AccountId, until: Time)
    requires CoolingUntil(s, account, until) && Apply(s, step).db.now < until
    ensures CoolingUntil(Apply(s, step), account, until) <==> step != Around(BanAccount(account))
  {
    match step
    case By(a, act) => ActHonours(s, a, act, account, until);
    case Around(event) => if event != BanAccount(account) { EventHonours(s, event, account, until); }
  }

  /** A ban clears the cooldown, and the plain reservation does not look at the status: the
      banned account is reserved while it was to rest. */
  lemma {:induction false} BanLiftsCooldown(s: System, a: Actor, account: AccountId, until: Time)
    requires account in s.db.accounts && Busy(s, a) && s.db.now < until
    ensures var s1 := Apply(s, Around(CooldownAccount(account, until)));
      var s2 := Apply(s1, Around(BanAccount(account)));
      var s3 := Apply(s2, By(a, ReserveOne(account)));
      && StartsReservation(s2, s3, account) && s2.db.now < until && s3.db.accounts[account].status.Banned?
  {
  }
}
